# Verified model of the document archive's durable core

This project models, in Dafny, the four parts of the archive that carry hard state, and proves
what each of them promises. `dafny verify dfyconfig.toml` checks all of it.

**The durable job queue** (`execution.dfy`, `queue.dfy`, `scheduler.dfy`, `job_rows.dfy`,
`queue_invariants.dfy`, `queue_runs.dfy`, `queue_effects.dfy`, `job_queue.dfy`, `worker.dfy`). The committed
tables are a value: jobs with their journals, leases and a clock. `Queue.Next` is one queue function as one
atomic step, as the locks of the service intend. `JobQueues.JobQueue` is the service itself, changing rows
field by field; each of its methods is proved to be its step, and says besides, from the old rows alone,
what becomes of every row (`QueueEffects`). Then every run of any steps by any workers keeps the invariant:
limits, completed predecessors, leases, and rows that agree with their journals. A document has one live job
as long as no caller enqueues it beside one. A job is claimed at most `maxAttempts` times, an aged job is
passed over at most as often as older jobs have attempts left, and a job whose worker keeps beating is never
taken from it. `Worker` follows a claimed job to its end, while time passes and everyone else (other
workers, recovery, users, the job's own heartbeat) takes any steps the queue allows between any two commits.

**Organization identity and merging** (`organizations.dfy`, `organization_runs.dfy`,
`organization_results.dfy`, `organization_effects.dfy`, `knowledge.dfy`). `OrganizationRuns.Root` is the
plain meaning of a history of merges. Over every run of accepts and merges the rows are that union-find kept
resolved: links, items and names of an organization are those of its root, `merged_into_id` has no cycle,
and a name once accepted always resolves.

**Crash-safe ingestion** (`consume.dfy`, `consume_facts.dfy`, `consumer.dfy`, `consume_runs.dfy` for the
consume folder; `mail.dfy`, `mail_source.dfy`, `mail_runs.dfy` for the mailbox). A consumer adds the state
of the world to a history after every commit and every move; those are the places where a crash can fall.
Files are conserved along the whole history, as long as no two files of the inbox collide, whatever users
add to the inbox and write there between passes, and one undisturbed pass repairs what any number of crashed
passes left: each file they claimed is archived or kept as failed, as its content decides. A mail source
dies wherever its conditions say; its cursor never passes a message that was not processed to its end, but
for retries at which the process died, as long as the server lists first what a poll takes first.

**Text, evidence and history** (`normalize.dfy`, `normalize_rules.dfy`, `ocr.dfy`, `pages.dfy`, `jpeg.dfy`,
`grounding.dfy`, `grounding_runs.dfy`, `history.dfy`). Normalization keeps every character that is not white
space, and is the only function that leaves normal texts alone and takes no notice of line ends and surplus
white space; the page locators agree; the pixels of a JPEG file are counted exactly when a frame header is
reached; over any run of the queue verified proposals quote their text; and logs replay to current values.

Runs in which something goes wrong, and one in which it does not, are in `job_examples.dfy`,
`organization_examples.dfy`, `consume_examples.dfy` and `mail_examples.dfy`.

## What the code does not keep

Each of these is stated as an exact condition, proved in both directions, and shown at a state or input
that is reached.

- A worker whose stage fails gets its failure refused exactly when cancellation has been requested and
  the policy would retry (`JobQueue.RecordFailure`); exactly then the job stays claimed until recovery
  (`Worker.RunClaimedJob`). Shown by `JobExamples.RetryOfCancelledIsRefused`.
- `enqueue_document` does not look for a live job of the document: a step gives a document two live jobs
  exactly when its caller enqueues beside one (`QueueRuns.OneLiveStep`). Shown by `JobExamples.EnqueuedTwice`.
- A contract or event accepted with an explicit organization follows that organization's root exactly
  when it was active then; the code checks only that it exists
  (`OrganizationResults.ItemFollowsRootIffGivenActive`). Shown by
  `OrganizationExamples.MergedOrganizationIsGiven`.
- Strong identifiers, unlike names, do not survive merges (`OrganizationResults.MergeForgetsIdentifiers`).
  Shown by `OrganizationExamples.MergedIdentifierIsForgotten`.
- The claim move of the consume scan overwrites a file exactly when one is already under its claim name
  and the move succeeds (`Consumer.Claim`, `Consumer.ScanPath`), and a scan does exactly when it claims so for
  one of the files it looks at (`Consumer.Scan`). In any run this takes two inbox files
  that are not ignored, have equal sizes and times, and names made safe alike, and a pass that is
  disturbed; up to the first state with two such files nothing is lost (`ConsumeRuns.RunPasses`). Shown by
  `ConsumeExamples.PassOverwritesAClaim`.
- A retry that finds both a retained file and a claim for one record leaves the claim behind, if the
  retained file is acceptable (`Consumer.RecoverClaim`, `Consume.Achieved`). Shown by
  `ConsumeExamples.TwoFilesForOneRecord` and `ConsumeExamples.DoubledClaimStays`.
- An interrupted claim is given up exactly when neither its claim nor an inbox file under the record's safe
  name is there, so the file stays in the inbox if its name was not safe (`Consumer.RecoverInterrupted`).
  Shown by `ConsumeExamples.InterruptedClaimIsGivenUp`.
- A connected poll with room for every request succeeds exactly when every requested message is still
  there (`MailSource.PollOnce`), so a retry of a message that is gone blocks every later poll
  (`MailRuns.RunPolls`). Shown by `MailExamples.DeletedRetryBlocks`.
- A record that a crash left in progress is decided by a successful poll exactly when the batch has a
  message with its attachment (`MailSource.PollOnce`); it never is again when those messages are below the
  cursor, not last and not requested (`MailRuns.RunPolls`). Shown by `MailExamples.FullBatchLeavesOut`.
- Metadata written by accepted knowledge leaves no history; a history that led to the value of such a key
  still does exactly when the value was the same (`Review.OverwriteMetadata`). Shown by
  `History.AcceptedKnowledgeIsNotReplayed`.
- RFC 3501 does not promise an order of search results. A poll leaves a message behind its cursor exactly
  when one that fills the batch is not lower than one left in the listing (`Mail.NoneSkippedIff`,
  `MailSource.PollOnce`). Shown by `Mail.UnorderedListingSkips`.

## Model

| member | source | states |
|---|---|---|
| Execution.BackOffDoublesThenSaturates | apps/api/pdi/execution/specification.py:68-84 | the delay starts at the base, doubles with each attempt and is at its maximum from the sixth on |
| Scheduler.ClassKeySplit | apps/api/pdi/ingestion/queue.py:179-194 | a schedule key is an aged key, or a recent key with its rank raised by one |
| Scheduler.CandidateQueriesAgree | apps/api/pdi/ingestion/queue.py:233-291 | the two-stage PostgreSQL query and the ranked portable query name the same job for every class |
| Scheduler.OpenKeyHasCandidate | apps/api/pdi/ingestion/queue.py:337-344 | no open job comes before an admissible candidate |
| Scheduler.ClaimTakesLeastOpenJob | apps/api/pdi/ingestion/queue.py:294-344 | a claim takes the least schedule key of all eligible jobs of all classes with a free slot, and takes one whenever there is one and its row is not locked |
| Scheduler.ClaimStepClaimsChosen | apps/api/pdi/ingestion/queue.py:294-400 | a claim starts exactly the chosen job; others are unchanged, deferred or failed for their predecessor, and only when queued; rows that other transactions lock are left alone |
| Scheduler.CandidatesAreQueued | apps/api/pdi/ingestion/queue.py:233-291 | candidates are queued jobs |
| JobRows.NewJobOk | apps/api/pdi/ingestion/queue.py:102-134 | an enqueued row agrees with its journal |
| JobRows.MovedJournal | apps/api/pdi/ingestion/queue.py:137-176 | a transition of the table keeps the journal a chained valid path and uses up potential |
| JobRows.PotentialFalls | apps/api/pdi/ingestion/state.py:8-61 | every transition out of a running or queued state, but a claim, goes down in rank |
| JobRows.NotedKept | apps/api/pdi/ingestion/queue.py:67-99 | an event without a transition keeps row and journal in agreement |
| JobRows.ClaimedRowOk | apps/api/pdi/ingestion/queue.py:378-398 | the claimed row has one more attempt, an owner and a valid journal |
| JobRows.FailedKept | apps/api/pdi/ingestion/queue.py:414-464 | a recorded failure keeps the row in order and ends or requeues the job |
| JobRows.CancelAskedKept | apps/api/pdi/ingestion/queue.py:467-504 | a cancellation request keeps the row in order |
| JobRows.CancelObservedKept | apps/api/pdi/ingestion/queue.py:507-524 | an observed cancellation keeps the row in order |
| JobRows.RecoveredKept | apps/api/pdi/ingestion/queue.py:540-583 | recovery keeps the row in order and takes it out of the active states |
| JobRows.RetriedRowOk | apps/api/pdi/ingestion/queue.py:731-741 | a manual retry gives a queued row with an attempt left and a valid journal |
| JobRows.DependencyFailedKept | apps/api/pdi/ingestion/queue.py:197-230 | failing a blocked job keeps its row in order |
| JobRows.AdvancedKept | apps/api/pdi/ingestion/worker.py:196-415 | a stretch of processing keeps the row in order and the job active or completed |
| QueueInvariants.KeptStep | apps/api/pdi/ingestion/queue.py:403-411 | steps that only keep rows and drop leases keep the invariant |
| QueueInvariants.StartedRowInv | apps/api/pdi/ingestion/queue.py:327-398 | what a starting row needs: a slot and a completed predecessor |
| QueueInvariants.ClaimInv | apps/api/pdi/ingestion/queue.py:294-400 | a claim keeps limits, leases, predecessors and rows in order |
| QueueInvariants.EnqueueInv | apps/api/pdi/ingestion/queue.py:102-134 | enqueueing any document, with or without jobs, keeps the invariant |
| QueueInvariants.RecoverInv | apps/api/pdi/ingestion/queue.py:527-585 | recovering any unlocked stale jobs at once keeps the invariant |
| QueueInvariants.HeartbeatInv | apps/api/pdi/ingestion/queue.py:588-613 | a heartbeat keeps the invariant |
| QueueInvariants.AcquireInv | apps/api/pdi/ingestion/queue.py:616-677 | a lease is given only below its class limit, at most one to a job and class |
| QueueInvariants.ReleaseInv | apps/api/pdi/ingestion/queue.py:680-700 | releasing leases keeps the invariant |
| QueueInvariants.RetryInv | apps/api/pdi/ingestion/queue.py:703-755 | a manual retry keeps the invariant |
| QueueInvariants.JobStepInv | apps/api/pdi/ingestion/worker.py:196-415 | worker and cancellation steps keep the invariant |
| QueueInvariants.NextInv | apps/api/pdi/ingestion/queue.py:102-755 | every queue function keeps the invariant, and no row loses what it has reached |
| QueueInvariants.RunInv | apps/api/pdi/ingestion/queue.py:102-755 | every run keeps limits, one lease per job and class, leases only on active or completed jobs, completed predecessors, and rows that agree with their journals |
| QueueInvariants.ReachableInv | apps/api/pdi/ingestion/queue.py:102-755 | the invariant holds in every state reachable from the empty queue |
| QueueRuns.RowAfterStep | apps/api/pdi/ingestion/queue.py:398-398 | attempts grow by one exactly when the job is claimed, and a waiting job keeps its time |
| QueueRuns.TransitionFalls | apps/api/pdi/ingestion/state.py:8-61 | without a manual retry each transition lowers attempts left, or keeps them and lowers the rank |
| QueueRuns.TransitionsAreBounded | apps/api/pdi/ingestion/state.py:8-61 | a journal has at most seven transitions per attempt, one more, and two per manual retry |
| QueueRuns.PredecessorStaysCompleted | apps/api/pdi/ingestion/queue.py:244-251 | the predecessor of a job ever claimed is completed, and stays so |
| QueueRuns.AttemptsCountClaims | apps/api/pdi/ingestion/queue.py:398-398 | over any run attempts grow by the number of claims |
| QueueRuns.ClaimKeysDistinct | apps/api/pdi/ingestion/worker.py:202-202 | no two claims of any run are of one job with one attempt |
| QueueRuns.ClaimedAtMostMaxAttempts | apps/api/pdi/execution/specification.py:82-87 | no run claims a job more than its maximum number of attempts |
| QueueRuns.ClaimTakesOlder | apps/api/pdi/ingestion/queue.py:188-194 | with an aged job waiting and a slot free, a claim takes it or an older one, or finds such a row locked |
| QueueRuns.WaitingStep | apps/api/pdi/ingestion/queue.py:188-194 | no step makes a waiting job wait behind more jobs |
| QueueRuns.BoundedBypass | apps/api/pdi/ingestion/queue.py:188-400 | while an aged eligible job waits with a slot free at each claim, every claim that finds no row locked takes a job, and no more are taken than the attempts left to older jobs |
| QueueRuns.ClaimOwns | apps/api/pdi/ingestion/queue.py:386-399 | a claim makes its worker the owner, and is its first beat |
| QueueRuns.OwnedStep | apps/api/pdi/ingestion/queue.py:527-613 | no step of anyone takes an attended job from its worker |
| QueueRuns.OneOwner | apps/api/pdi/core/config.py:112-134 | a job whose worker beats at gaps of at most twice the interval is never recovered, nor claimed by another |
| QueueRuns.LiveAfterStep | apps/api/pdi/ingestion/queue.py:703-755 | no row becomes live again, but the one that a manual retry restarts for a document without a live job |
| QueueRuns.OneLiveStep | apps/api/pdi/ingestion/queue.py:102-134 | a step keeps one live job per document exactly unless it enqueues a document beside a live one |
| QueueRuns.OneLiveRun | apps/api/pdi/ingestion/queue.py:703-755 | over any run in which callers do not enqueue beside a live job, retries, claims and recovery keep one live job per document |
| QueueRuns.AddedBeside | apps/api/pdi/ingestion/queue.py:102-134 | enqueueing beside a live job gives the document two |
| JobExamples.RetryOfCancelledIsRefused | apps/api/pdi/ingestion/queue.py:431-441 | after enqueue, claim and a cancellation request, a retryable failure changes nothing and the job stays with its worker |
| JobExamples.EnqueuedTwice | apps/api/pdi/ingestion/queue.py:102-134 | a document enqueued twice from the empty queue has two live jobs |
| QueueEffects.UrgencyIsOrder | apps/api/pdi/execution/specification.py:23-31 | the ranks order the priorities from interactive to bulk |
| QueueEffects.KeysInOrder | apps/api/pdi/ingestion/queue.py:179-194 | keys are in order exactly when one job goes before the other: jobs that waited too long, then the more urgent, then the older |
| QueueEffects.ClaimTakesFirst | apps/api/pdi/ingestion/queue.py:294-344 | a claim takes a job exactly if it may start, has room and goes before all others that do, and its row is not locked |
| QueueEffects.WaitsFirstIff | apps/api/pdi/ingestion/queue.py:345-376 | the job put off is the one that goes before all others that may start, exactly when none of them has room |
| QueueEffects.BlockedMustFail | apps/api/pdi/ingestion/queue.py:197-230 | the jobs failed for their predecessor are the queued ones whose predecessor ended without completing, where neither row is locked |
| QueueEffects.ClaimEffects | apps/api/pdi/ingestion/queue.py:294-400 | row by row, what a claim does |
| QueueEffects.DelayIsBackOff | apps/api/pdi/execution/specification.py:68-84 | the delays are 2 seconds after the first attempt, then 4, 8, 16, 32, and 60 from the sixth on |
| QueueEffects.FailureEffects | apps/api/pdi/ingestion/queue.py:414-464 | what a recorded failure does with its row, by state, class and attempts |
| QueueEffects.RetryWaits | apps/api/pdi/ingestion/queue.py:414-464 | over any run after a failure retried at some time, no claim takes the job before its delay has passed, unless a manual retry of its document came between |
| QueueEffects.RecoveryEffects | apps/api/pdi/ingestion/queue.py:527-585 | row by row, what recovery does |
| QueueEffects.CancelEffects | apps/api/pdi/ingestion/queue.py:467-524 | what requesting and observing a cancellation do, and to which rows |
| QueueEffects.LatestRestarts | apps/api/pdi/ingestion/queue.py:703-741 | the job that a manual retry restarts is the latest of the document that may be |
| QueueEffects.RetryEffects | apps/api/pdi/ingestion/queue.py:703-755 | what a manual retry does, and that all other rows stay |
| QueueEffects.BeatEffects | apps/api/pdi/ingestion/queue.py:588-613 | what a heartbeat renews, and for whom |
| QueueEffects.LeaseEffects | apps/api/pdi/ingestion/queue.py:616-677 | when a lease is given, and which one |
| QueueEffects.ReleaseEffects | apps/api/pdi/ingestion/queue.py:680-700 | exactly the leases of job and class go |
| QueueEffects.AdvanceEffects | apps/api/pdi/ingestion/worker.py:196-415 | what a stretch of processing does with its row |
| QueueEffects.TransitionsAre | apps/api/pdi/ingestion/state.py:8-61 | the table of transitions, one by one |
| QueueEffects.EnqueueEffects | apps/api/pdi/ingestion/queue.py:102-134 | what enqueueing adds |
| JobQueues.TransitionJob | apps/api/pdi/ingestion/queue.py:137-176 | a transition outside the table is refused; one inside sets state, times, failure class and journal |
| JobQueues.RecoverRow | apps/api/pdi/ingestion/queue.py:540-583 | field by field, the row cancelled, queued again or failed |
| JobQueues.FailRow | apps/api/pdi/ingestion/queue.py:423-457 | field by field, the row after a failure: retried exactly for a retryable failure with attempts left, and refused exactly when it would be although its cancellation was requested |
| JobQueues.AdmitRow | apps/api/pdi/ingestion/queue.py:378-398 | field by field, the claimed row |
| JobQueues.JobQueue.constructor | apps/api/pdi/ingestion/queue.py:32-38 | the empty queue satisfies the invariant |
| JobQueues.JobQueue.EnqueueDocument | apps/api/pdi/ingestion/queue.py:102-134 | is its atomic step: one new queued row, available at once, with the values asked for and nothing reached yet; refused exactly when no row appears |
| JobQueues.JobQueue.FailBlockedDependencies | apps/api/pdi/ingestion/queue.py:197-230 | fails exactly the queued jobs whose predecessor ended without completing, where neither row is locked, and counts them |
| JobQueues.JobQueue.FirstAdmissible | apps/api/pdi/ingestion/queue.py:337-344 | the walk in schedule order stops at the least candidate with a slot |
| JobQueues.JobQueue.ClaimJob | apps/api/pdi/ingestion/queue.py:294-400 | returns the job that goes before all others that may start (queued, its time come, attempts left, predecessor completed) and have room in their class, if its row is not locked; row by row, that job starts, blocked ones fail, the first is put off when none that may start has room, and all others stay |
| JobQueues.JobQueue.ReleaseAllResourceLeases | apps/api/pdi/ingestion/queue.py:403-411 | no lease of the job is left, and every other lease is as it was |
| JobQueues.JobQueue.RecordFailure | apps/api/pdi/ingestion/queue.py:414-464 | refused without effect exactly when a cancelled job would be retried; otherwise the job is queued again, at the time that the back-off gives, when the failure is retryable and attempts are left, and ends failed or timed out if not; its leases go and no other row changes |
| JobQueues.JobQueue.RequestCancellation | apps/api/pdi/ingestion/queue.py:467-504 | a queued job is cancelled at once, one that a worker holds is marked as requested and stays with it, and any other stays as it is |
| JobQueues.JobQueue.ObserveCancellation | apps/api/pdi/ingestion/queue.py:507-524 | true exactly when a cancellation was requested, and then the job is cancelled and its leases are gone |
| JobQueues.JobQueue.RecoverStaleJobs | apps/api/pdi/ingestion/queue.py:527-585 | each unlocked active job without a heartbeat since the cutoff is cancelled if that was requested, queued again at once if it has attempts left, and failed otherwise, without owner; its leases go, all other rows stay, and the two results are the sizes of those sets of old rows |
| JobQueues.JobQueue.HeartbeatJob | apps/api/pdi/ingestion/queue.py:588-613 | true exactly when the worker still holds the job, and then its beat is renewed; the worker's leases for it are renewed in any case, and nothing else changes |
| JobQueues.JobQueue.AcquireResourceLease | apps/api/pdi/ingestion/queue.py:616-677 | true exactly when the job has a lease of the class that has not run out, which is renewed, or fewer such leases than the limit are there, and then it gets one; otherwise it is put off; leases that have run out go |
| JobQueues.JobQueue.ReleaseResourceLease | apps/api/pdi/ingestion/queue.py:680-700 | exactly the leases of the job and class go, and the job stays with its worker |
| JobQueues.JobQueue.RetryDocumentJob | apps/api/pdi/ingestion/queue.py:703-755 | a live job is left alone; or else the latest failed or timed-out job of the document with an attempt left is queued again at once, interactively, or there is a new one; afterwards the document has a live job, and no other row changes |
| JobQueues.JobQueue.AdvanceJob | apps/api/pdi/ingestion/worker.py:206-413 | refused exactly when the table has no such transition, and then nothing changes; otherwise the state is the next one of the route, a completed job is marked as degraded exactly if its result is, and nothing else changes |
| Worker.ForeignStep | apps/api/pdi/ingestion/queue.py:102-755 | no step of anyone else, and no heartbeat, takes the job from its worker; only a cancellation request shows in its state |
| Worker.Take | apps/api/pdi/ingestion/queue.py:102-755 | every possible step is what its queue function does |
| Worker.Others | apps/api/pdi/ingestion/worker.py:455-480 | the tables are those after every step of others that is possible when its turn comes, and the worker still holds its job |
| Worker.WaitForResource | apps/api/pdi/ingestion/worker.py:67-86 | until the deadline, whatever others do after each request and between rounds: ends with a lease, a cancellation that was asked for, or a timeout no more than one poll before the deadline, and keeps the job otherwise |
| Worker.StartExtraction | apps/api/pdi/ingestion/worker.py:196-222 | the first stretches under interference, with no refused transition |
| Worker.ExtractText | apps/api/pdi/ingestion/worker.py:219-273 | extraction with or without OCR under interference, with no refused transition |
| Worker.Analyse | apps/api/pdi/ingestion/worker.py:332-367 | the analysis under interference ends in the same state, with a cancellation that was asked for, or with a failure |
| Worker.PersistAndAnalyse | apps/api/pdi/ingestion/worker.py:289-415 | from the text to completion under interference, with no refused transition; marked as degraded exactly when the text was, for a canonical one |
| Worker.ProcessJob | apps/api/pdi/ingestion/worker.py:196-415 | whatever the stages do and others try between commits, no transition is refused: the job completes, marked as degraded exactly when its canonical text was, is cancelled because somebody asked, or a stage raises while the worker holds it with its attempts; it completes only if no stage raises, and what is raised is what a stage raises or the timeout of a wait |
| Worker.RunClaimedJob | apps/api/pdi/ingestion/worker.py:418-511 | the job stays with its worker exactly when a stage raised, cancellation was requested by then and the policy would retry; otherwise it is off its hands, without leases, and with the failure that was raised, if any |
| Organizations.Resolve | apps/api/pdi/knowledge/service.py:185-259 | a result is active; a name some active organization has is resolved to one that has it; identifiers decide only when no name does |
| Organizations.OrganizationForDocument | apps/api/pdi/knowledge/service.py:319-333 | an active organization linked to the document, if there is one |
| OrganizationRuns.AliasesAdded | apps/api/pdi/knowledge/service.py:100-123 | adding aliases loses none and gives every name that is not canonical |
| OrganizationRuns.AcceptOrganizationInv | apps/api/pdi/knowledge/service.py:262-316 | an accepted proposal resolves to an active organization that has the name |
| OrganizationRuns.AcceptItemInv | apps/api/pdi/knowledge/service.py:336-499 | accepting contracts, events, deadlines and actions keeps the invariant |
| OrganizationRuns.LinkContractInv | apps/api/pdi/knowledge/service.py:336-375 | linking a proposal to a contract that exists adds its document to that contract, once, and nothing else |
| OrganizationRuns.MergedMerges | apps/api/pdi/knowledge/service.py:687-716 | a merge keeps `merged_into_id` set exactly on merged organizations, and sources never targets again |
| OrganizationRuns.MergedLinks | apps/api/pdi/knowledge/service.py:633-671 | after a merge the target has the links of both, without repeats, and metadata names linked organizations |
| OrganizationRuns.MergedHasNames | apps/api/pdi/knowledge/service.py:630-632 | after a merge nobody has lost a name, and the source's are the target's |
| OrganizationRuns.NextInv | apps/api/pdi/knowledge/service.py:262-716 | every accept, rejection and merge keeps the invariant |
| OrganizationRuns.RunInv | apps/api/pdi/knowledge/service.py:262-716 | in every reachable state links are active and distinct, active organizations share no canonical name, contracts have their documents, and merges are in the rows |
| OrganizationRuns.MergeCarries | apps/api/pdi/knowledge/service.py:596-716 | a merge carries organizations, links, items and names over to the new roots |
| OrganizationRuns.RootConcat | apps/api/pdi/knowledge/service.py:596-716 | roots of two histories compose |
| OrganizationRuns.RunCarries | apps/api/pdi/knowledge/service.py:262-716 | over every run, links, items and names of an organization are those of its root, and contracts keep their documents |
| OrganizationResults.MergedRoot | apps/api/pdi/knowledge/service.py:687-716 | an organization has the root of the one it was merged into, which was merged later or never |
| OrganizationResults.ChaseEndsAtRoot | apps/api/pdi/knowledge/service.py:687-716 | following `merged_into_id` ends at the root, which is active |
| OrganizationResults.NoCycle | apps/api/pdi/knowledge/service.py:687-716 | following `merged_into_id` never comes back |
| OrganizationResults.NamesAreNeverLost | apps/api/pdi/knowledge/service.py:262-316 | a non-empty name once accepted resolves, after any run, to an active organization that has it |
| OrganizationResults.RootOfActive | apps/api/pdi/knowledge/service.py:596-716 | an organization is its own root exactly when it is active |
| OrganizationResults.ItemFollowsRootIffGivenActive | apps/api/pdi/knowledge/service.py:336-499 | an accepted item points at the root of what it was first given exactly when that was active |
| OrganizationResults.MergeForgetsIdentifiers | apps/api/pdi/knowledge/service.py:227-259 | after a merge an unknown name with given identifiers is unresolved exactly when every match was resolved to the source |
| OrganizationExamples.MergedIdentifierIsForgotten | apps/api/pdi/knowledge/service.py:227-259 | for any normalization that leaves plain names alone, an identifier that found an organization finds none once that is merged |
| OrganizationExamples.MergedOrganizationIsGiven | apps/api/pdi/knowledge/service.py:336-400 | a contract accepted for a merged organization names it |
| OrganizationEffects.ResolveMatches | apps/api/pdi/knowledge/service.py:185-259 | a result is the first organization of that canonical name, or else of that alias, or else of the first accepted proposal with an identifier in common; there is one exactly when one of these is there |
| OrganizationEffects.AcceptEffects | apps/api/pdi/knowledge/service.py:262-316 | row by row, what accepting an organization does, and when it is refused |
| OrganizationEffects.ItemEffects | apps/api/pdi/knowledge/service.py:336-499 | what accepting an item does, with whose organization, and when it is refused |
| OrganizationEffects.MergeEffects | apps/api/pdi/knowledge/service.py:596-716 | row by row, what a merge does: an alias is added exactly for each name of the source that the target lacks |
| KnowledgeService.Knowledge.ResolveExactOrganization | apps/api/pdi/knowledge/service.py:185-259 | the dictionaries filled row by row give the first active organization of that canonical name, or else of that alias, or else the one of the first accepted proposal with an identifier in common, or nothing when there is none |
| KnowledgeService.Knowledge.AddAlias | apps/api/pdi/knowledge/service.py:100-123 | afterwards the name is there once, unless it is the canonical one, and all others are as they were |
| KnowledgeService.Knowledge.LinkDocument | apps/api/pdi/knowledge/service.py:126-137 | afterwards the link is there once, and all others are as they were |
| KnowledgeService.Knowledge.Accept | apps/api/pdi/knowledge/service.py:262-316 | refused, without effect and with the right error, exactly for a proposal that may not be reviewed, an empty name, or a choice that is not an active organization; the reviewer's target goes before the proposal's suggestion; a new organization is made exactly when none matches; then document, metadata and name are linked to the result and nothing else changes |
| KnowledgeService.Knowledge.AcceptForDocument | apps/api/pdi/knowledge/service.py:336-499 | one item more, of the organization that a contract or event names, or else of the first active one linked to the document, or of none when there is none; a contract is linked to its document; refused exactly for a proposal that may not be reviewed or an organization that does not exist |
| KnowledgeService.Knowledge.LinkToContract | apps/api/pdi/knowledge/service.py:364-376 | afterwards the document is linked to the contract, and other links are as they were |
| KnowledgeService.Knowledge.AcceptLinked | apps/api/pdi/knowledge/service.py:336-375 | links the document to the contract, and nothing else; refused exactly for a proposal that may not be reviewed or when the contract is not there |
| KnowledgeService.Knowledge.RejectProposal | apps/api/pdi/knowledge/service.py:572-593 | is its step; refused exactly for a proposal that is not pending |
| KnowledgeService.Knowledge.MergeOrganizations | apps/api/pdi/knowledge/service.py:596-716 | the loops over aliases, links and items are the merge: the source points to the target, which has its names, documents, metadata and items, and nothing else changes; refused exactly when not two active organizations |
| Consume.MoveConservesIffFree | apps/api/pdi/external/consume.py:68-69 | a move keeps every file exactly when nothing is at its destination |
| Consume.LoggedConserves | apps/api/pdi/external/consume.py:98-225 | wherever a history is cut off, everything from its start is still there |
| Consume.InjectiveNamesDoNotCollide | apps/api/pdi/external/consume.py:258-265 | files never collide where names are made safe without clashes |
| ConsumeFacts.StillVisited | apps/api/pdi/external/consume.py:256-319 | a watched record that is no longer merely observed has the stamp of a file of its name that the scan has visited |
| ConsumeFacts.LoggedPrefixes | apps/api/pdi/external/consume.py:229-325 | a pass conserves up to any point before which no inbox files collide |
| ConsumeFacts.StaysPutAway | apps/api/pdi/external/consume.py:180-225 | recovering one record leaves the file of another where it was put |
| ConsumeFacts.OneRecovered | apps/api/pdi/external/consume.py:180-225 | with one record more recovered, in any order, the others are untouched or as recovered |
| Consumers.Consumer.Move | apps/api/pdi/external/consume.py:68-69 | atomic; fails without effect; conserves exactly when the destination is free |
| Consumers.Consumer.ClaimedDestination | apps/api/pdi/external/consume.py:38-46 | a free path in the directory, under the wanted name if that is free, or else that name with a time |
| Consumers.Consumer.IngestPath | apps/api/pdi/documents/service.py:160-205 | equal content is a duplicate of the committed document, new content is one more document with its blob, and a failure commits none; no blob without a document is left |
| Consumers.Consumer.CommitDocument | apps/api/pdi/documents/service.py:87-146 | a document is committed with its blob, and only for new content |
| Consumers.Consumer.DropStored | apps/api/pdi/documents/service.py:138-141 | taking back a blob that no document has leaves all documents with theirs |
| Consumers.Consumer.RetainFailedFile | apps/api/pdi/external/consume.py:81-95 | moves only this file, to a free name that the record then names, or leaves everything; retained files stay apart, and the record changes in nothing else |
| Consumers.Consumer.IngestClaim | apps/api/pdi/external/consume.py:98-162 | conserves at every commit and move; ends ingested or duplicate, with the file archived and its content that of the record's document, or failed, with the file among the failed ones unless that failed too; undisturbed, as the content decides; one more attempt, and one count by the outcome |
| Consumers.Consumer.FinishTerminalArchive | apps/api/pdi/external/consume.py:72-78 | unless the move fails, which stops it without effect, the claim's file is archived, nothing is new among the failed files, and no claim is left |
| Consumers.Consumer.RecoverInterrupted | apps/api/pdi/external/consume.py:188-200 | undisturbed, the record is no longer in progress and its claim is archived or kept as failed as the content decides; given up, with no file moved, exactly when neither claim nor inbox file is there |
| Consumers.Consumer.RecoverClaim | apps/api/pdi/external/consume.py:180-225 | undisturbed, the record's own file is archived when the record was finished or the content is acceptable, and kept as failed otherwise; a claim is left over exactly when a retry took an acceptable retained file instead of it; each outcome is counted once |
| Consumers.Consumer.RecoverClaims | apps/api/pdi/external/consume.py:165-225 | undisturbed, the same for all records, in whatever order they come |
| Consumers.Consumer.ObservedByName | apps/api/pdi/external/consume.py:248-256 | every observed name leads to an observed record of that name |
| Consumers.Consumer.Restamp | apps/api/pdi/external/consume.py:265-274 | a changed file starts its wait again under a key of its own |
| Consumers.Consumer.Observe | apps/api/pdi/external/consume.py:275-298 | a new file gets an observed record under a key of its own, and keys stay distinct |
| Consumers.Consumer.Claim | apps/api/pdi/external/consume.py:303-319 | overwrites exactly when a file is under the claim name and the move succeeds, and conserves exactly otherwise; a move that fails fails the record, and otherwise the file ends as its ingestion does |
| Consumers.Consumer.ScanPath | apps/api/pdi/external/consume.py:258-319 | ignores, watches anew, observes, passes over, claims or leaves waiting, as name, stamp and time say, with a count for each; overwrites exactly when it claims onto a file; undisturbed, a claimed file is archived or kept as failed as its content decides |
| Consumers.Consumer.ScanNext | apps/api/pdi/external/consume.py:258-319 | one file further in the scan: what was watched stays known; exact on overwriting, which means that two files collide |
| Consumers.Consumer.Scan | apps/api/pdi/external/consume.py:247-319 | looks once at each file of the inbox and overwrites exactly when one of the claims it makes goes onto a file; that takes two files of equal stamp whose names are made safe alike, and a disturbed pass; records that were not observed and files put away stay; undisturbed, what recovery achieved stays and every claimed file is put away |
| Consumers.Consumer.ProcessConsumeOnce | apps/api/pdi/external/consume.py:229-325 | a pass conserves all files and documents up to any point before which no inbox files collide, and throughout when undisturbed; then the own file of every record and every file claimed in the scan is archived or kept as failed as it should be, nothing is left in progress, and each new document is reported |
| ConsumeRuns.RunPasses | apps/api/pdi/external/consume.py:328-343 | any number of passes that crash anywhere, with users writing to inbox files between them, keep the invariant, and lose nothing up to any state before which no inbox files collided, nor ever when undisturbed |
| ConsumeRuns.WritesKeepInv | apps/api/pdi/external/consume.py:258-274 | what users write to files of the inbox keeps the invariant |
| ConsumeRuns.FileStays | apps/api/pdi/external/consume.py:98-225 | along a trace that keeps all, a file stays, unchanged unless a user wrote it in the inbox |
| ConsumeRuns.EachFileInOnePlace | apps/api/pdi/external/consume.py:98-225 | each file that was ever there is in exactly one place, unchanged unless a user wrote it in the inbox, and each document has its blob, up to the first collision |
| ConsumeRuns.CrashThenRecover | apps/api/pdi/external/consume.py:165-225 | after any crashes one undisturbed pass loses nothing, archives the claims of finished records and of acceptable content and keeps the others as failed, leaves no record in progress, and leaves claims of finished records exactly where a retry found two files; nothing was lost before unless inbox files had collided |
| ConsumeRuns.PassExtends | apps/api/pdi/external/consume.py:328-343 | a pass cut off anywhere continues a trace that loses nothing before a collision |
| ConsumeExamples.PassOverwritesAClaim | apps/api/pdi/external/consume.py:308-319 | two new files whose names differ by a blank at the start, and a full disk: the second claim overwrites the first |
| ConsumeExamples.TwoFilesForOneRecord | apps/api/pdi/external/consume.py:188-227 | two crashes and two failures leave one record with a retained file and a claim |
| ConsumeExamples.DoubledClaimStays | apps/api/pdi/external/consume.py:205-227 | an undisturbed pass then leaves the claim behind |
| ConsumeExamples.InterruptedClaimIsGivenUp | apps/api/pdi/external/consume.py:188-200 | a claim interrupted before its move is given up when the file name starts with a blank, and the file stays in the inbox |
| ConsumeExamples.WrittenFileWaitsAgain | apps/api/pdi/external/consume.py:265-274 | a file still being written when its wait is over is not claimed and waits again |
| Mail.NoneSkippedIff | apps/api/pdi/external/mail.py:179-200 | in whatever order messages are listed, every message between the old and the new cursor is in the batch exactly when those taken from the listing are lower than those left in it |
| Mail.NoneSkipped | apps/api/pdi/external/mail.py:179-200 | so with an ascending listing none is left out, for any requests and any limit |
| Mail.UnorderedListingSkips | apps/api/pdi/external/mail.py:179-200 | a listing out of order that does not meet the condition, and the message left behind the cursor |
| Mail.ChangeCovers | apps/api/pdi/external/mail.py:179-184 | deliveries, deletions and renumbering keep the cursor right |
| MailSources.MailSource.constructor | apps/api/pdi/external/mail.py:243-244 | a source that has never polled covers nothing, rightly |
| MailSources.EachCountedOnce | apps/api/pdi/external/mail.py:62-148 | every attachment is counted once as ingested, duplicate, unsupported or failed |
| MailSources.MailSource.ProcessAttachment | apps/api/pdi/external/mail.py:83-147 | stops exactly where the process dies, in progress; otherwise failed, duplicate or ingested exactly as acceptance, failures and the documents that are there say, with one more attempt and one count |
| MailSources.MailSource.ProcessMessage | apps/api/pdi/external/mail.py:42-148 | every supported attachment has a record that is final, final records are left alone, only the one at which the process died is newly in progress, and the report tallies the attachments by what became of their records; with steady commits exactly acceptable ones are ingested |
| MailSources.MailSource.RetryUids | apps/api/pdi/external/mail.py:203-233 | the messages of this numbering for which a retry is asked, each once; exactly the other requests are dropped |
| MailSources.MailSource.FetchMessages | apps/api/pdi/external/mail.py:151-200 | the whole batch is fetched, or nothing is |
| MailSources.BatchCovers | apps/api/pdi/external/mail.py:187-200 | once a batch that leaves none out is processed, all up to the new cursor is recorded |
| MailSources.BatchFetches | apps/api/pdi/external/mail.py:180-200 | with room for all requests the batch is the requests and the first new messages; or else it is full of requests |
| MailSources.InProgressIff | apps/api/pdi/external/mail.py:114-148 | a record in progress is decided exactly when its message is in the batch |
| MailSources.DecidedButStays | apps/api/pdi/external/mail.py:42-148 | what is decided stays decided, but for a retry at which the process died |
| MailSources.Polled | apps/api/pdi/external/mail.py:246-273 | a poll that succeeds leaves none out exactly when its listing is in order, and then the new cursor is right |
| MailSources.MailSource.PollOnce | apps/api/pdi/external/mail.py:236-279 | leaves no message behind the new cursor exactly when the listing is in order for the batch, and then keeps all below it decided but for a retry at which the process died; fetches the requests and the first new messages; decides a record in progress exactly when its message was fetched; may die anywhere, also before the cursor is committed; connected, succeeds exactly when every requested message is there; with steady commits exactly acceptable attachments are ingested, and the report has the messages fetched and the documents new |
| MailRuns.RunPolls | apps/api/pdi/external/mail.py:282-298 | over any run whose polls find their listings in order, no message up to the cursor is skipped and each attachment is decided, but for at most one retry for each poll that died on a pending one; in any order of listings, a retry of a lost message blocks every poll, and a record out of reach stays in progress |
| MailRuns.PollOnceMore | apps/api/pdi/external/mail.py:236-279 | one poll with its listing in order loses at most one retry, and none unless it died with a retry pending |
| MailRuns.PollKeepsOut | apps/api/pdi/external/mail.py:180-200 | a record in progress whose messages are below the cursor, not last and not requested is left as it is |
| MailRuns.FetchedAgain | apps/api/pdi/external/mail.py:179-200 | with the cursor where it was, a later poll with no more requests fetches again what a poll that died had fetched anew |
| MailExamples.DeletedRetryBlocks | apps/api/pdi/external/mail.py:203-233 | a poll, a retry request and a deletion block the source |
| MailExamples.FullBatchLeavesOut | apps/api/pdi/external/mail.py:180-200 | a retry cut off by a crash and a batch full of newer mail: the attachment is out of reach |
| Normalization.SpaceIs | apps/api/pdi/ingestion/extraction.py:64-68 | the characters that count as white space, one by one |
| Normalization.LinesStripped | apps/api/pdi/ingestion/extraction.py:64-66 | stripping lines loses only white space, and changes nothing when no line has any at its end |
| Normalization.Collapsed | apps/api/pdi/ingestion/extraction.py:67-67 | collapsing leaves no three newlines in a row and loses only newlines |
| Normalization.NormalizeIsNormal | apps/api/pdi/ingestion/extraction.py:64-68 | the result is normal and has the same characters that are not white space, in order |
| Normalization.FixedIffNormal | apps/api/pdi/ingestion/extraction.py:64-68 | exactly the normal texts are left alone |
| Normalization.NormalizeIsIdempotent | apps/api/pdi/ingestion/extraction.py:64-68 | normalizing again changes nothing |
| NormalizationRules.ReplacementsAreImmaterial | apps/api/pdi/ingestion/extraction.py:64-68 | which of the three line ends is used, white space before a line end or at either end of the text, and a third newline do not change the result |
| NormalizationRules.NextReplacement | apps/api/pdi/ingestion/extraction.py:64-68 | every text that is not normal has such a replacement, which brings it nearer to a normal one |
| NormalizationRules.NormalizeIsUnique | apps/api/pdi/ingestion/extraction.py:64-68 | normalization is the only function that leaves normal texts alone and takes no notice of these replacements |
| Normalization.JoinedPagesStay | apps/api/pdi/ingestion/extraction.py:103-110 | non-empty normalized pages joined by a blank line are left unchanged |
| OcrDecisions.RequiredIffSomePageIsThin | apps/api/pdi/ingestion/extraction.py:71-84 | OCR is required exactly when some page has too little text; the total never decides |
| OcrDecisions.NormalizingDoesNotDecide | apps/api/pdi/ingestion/extraction.py:103-107 | normalizing the pages does not change the decision |
| Pages.PageStands | apps/api/pdi/ingestion/extraction.py:110-110 | in the joined text each page stands at its start, after a blank line |
| Pages.FoundAtStart | apps/api/pdi/intelligence/providers.py:54-58 | searching after the page before finds a normalized page exactly where it stands |
| Pages.PageForOffset | apps/api/pdi/intelligence/providers.py:54-63 | searching gives the true page of every offset of a joined text |
| Pages.PageByCounting | apps/api/pdi/knowledge/extraction.py:113-121 | counting gives the true page up to the end of the last one, and page one after it |
| Pages.LocatorsAgree | apps/api/pdi/knowledge/extraction.py:113-128 | both locators give the same, true page |
| Jpeg.ImagePixelCount | apps/api/pdi/ingestion/extraction.py:385-434 | ends on every byte string with the dimensions of the first frame header reached, or none |
| Jpeg.ReadMarker | apps/api/pdi/ingestion/extraction.py:409-414 | the first byte after any fill bytes |
| Jpeg.SegmentsSkipped | apps/api/pdi/ingestion/extraction.py:415-433 | stray bytes, bare markers and segments before the frame header are passed over exactly |
| Jpeg.RoundTrip | apps/api/pdi/ingestion/extraction.py:406-433 | behind any stray bytes, segments, fill bytes and bare markers a frame header's height times width is found |
| Jpeg.MarkersAre | apps/api/pdi/ingestion/extraction.py:393-416 | the frame headers and the markers without a segment, one by one |
| Jpeg.FrameReached | apps/api/pdi/ingestion/extraction.py:406-433 | where pixels are counted, segments stand and then a frame header with these dimensions |
| Jpeg.JpegPixelsIff | apps/api/pdi/ingestion/extraction.py:393-434 | a JPEG file has a pixel count exactly when stray bytes, markers and segments lead to a frame header, and then it is height times width of that |
| Jpeg.PngRoundTrip | apps/api/pdi/ingestion/extraction.py:387-391 | a whole PNG file has the pixels that its first chunk says |
| Grounding.VerifiedEvidence | apps/api/pdi/intelligence/service.py:40-45 | true exactly when every span equals the text at its offsets; then all are marked |
| Grounding.EvidenceFor | apps/api/pdi/knowledge/extraction.py:113-128 | a span that is its text's slice, on its true page |
| Grounding.Analysis.FindCompleted | apps/api/pdi/intelligence/service.py:74-95 | the current completed run of the provider on the extraction, or else the last one, or none when there is none |
| Grounding.Analysis.VerifyAll | apps/api/pdi/intelligence/service.py:111-119 | true exactly when all candidates are supported; each is returned with its field, value and spans, but for the marks |
| Grounding.Analysis.RunIntelligence | apps/api/pdi/intelligence/service.py:57-170 | the run of the key is returned; or else, if asked, the current run of the provider on the extraction, or its last one; or else a new one is made: with supported evidence it alone is current and proposes each candidate's field and value, pending and verified, with its spans marked, and pending proposals of earlier runs are superseded; otherwise it fails and adds nothing |
| Grounding.Analysis.AddProposals | apps/api/pdi/intelligence/service.py:147-191 | pending proposals of earlier runs are superseded, other rows stay, and each candidate gets a pending, verified row of the run with its field, value and evidence |
| Grounding.Analysis.Propose | apps/api/pdi/knowledge/extraction.py:434-489 | adds a row exactly when the identity is new, with the evidence that the draft gives, verified only if grounded |
| Grounding.Analysis.GenerateKnowledge | apps/api/pdi/knowledge/extraction.py:434-489 | pending rows of other runs are superseded, other rows stay, and one row is added for each identity not yet there, with the evidence of the first draft that has it; verified rows are grounded when the run analysed the same text |
| Grounding.Analysis.AnalyseAndPropose | apps/api/pdi/ingestion/worker.py:343-381 | analyses exactly when neither the key nor a completed run to reuse is there; then a completed run has a proposal for every draft, and any other adds none; every verified proposal stays grounded, unless the request key was used on another text |
| Grounding.Analysis.AnalyseAll | apps/api/pdi/ingestion/worker.py:343-381 | over any requests with keys of their own every verified proposal stays grounded, whatever is answered and reused |
| GroundingRuns.ClaimsNameRequests | apps/api/pdi/ingestion/worker.py:202-202 | requests of different claims have different keys |
| GroundingRuns.AnalyseClaims | apps/api/pdi/ingestion/worker.py:196-415 | over any run of the queue, with each claim handled at most once and in any order, every verified proposal stays grounded |
| History.RecordedAgrees | apps/api/pdi/ingestion/review.py:86-111 | recording a change keeps the history linked and leading to the current value |
| History.Review.Record | apps/api/pdi/ingestion/review.py:86-111 | sets a field and records it, unless it is the same |
| History.Review.ConfirmDocument | apps/api/pdi/ingestion/review.py:114-154 | sets the four columns, with history, to the given values, title and type stripped; a pending proposal is accepted exactly when its column has its value, and superseded otherwise |
| History.Review.AcceptProposal | apps/api/pdi/ingestion/review.py:175-255 | refused without effect with the error that state, evidence, value or parser give; otherwise the field takes the first of edited, normalized and proposed value that says anything, or the structured value, with a history entry when it changes; competitors are superseded, and nothing else changes |
| History.ChosenIsSaidFirst | apps/api/pdi/ingestion/review.py:189-189 | the value taken is the first of edited, normalized and proposed that says anything |
| History.Review.RejectProposal | apps/api/pdi/ingestion/review.py:258-266 | rejects exactly a pending proposal |
| History.Review.RejectProposals | apps/api/pdi/ingestion/review.py:269-283 | rejects exactly the pending proposals of the fields, or all when none are named |
| History.Review.OverwriteMetadata | apps/api/pdi/knowledge/service.py:307-313 | a history of the key that was right is right afterwards exactly when the key had the value already |
| History.AcceptedKnowledgeIsNotReplayed | apps/api/pdi/knowledge/service.py:307-313 | one accepted value whose key the history does not lead to |
| History.Review.PersistExtraction | apps/api/pdi/ingestion/worker.py:119-131 | the first extraction becomes canonical, with its log entry |
| History.Review.PromoteExtraction | apps/api/pdi/ingestion/versions.py:283-332 | refused without effect, each with its error, for a missing or the canonical extraction; otherwise logged, from the one before |
| History.Review.RunReview | apps/api/pdi/ingestion/review.py:86-283 | after any run, histories of fields that knowledge did not overwrite lead to the current values, and the promotion log to the canonical extraction |

## Left out

- QueueInvariants.RunInv: limits are fixed for a run; changing them at run time is not modelled.
- Worker.ProcessJob: each stretch from a cancellation check to the next commit is one step; a cancellation that arrives inside one, and the stale row the session then holds, are not modelled.
- Worker.WaitForResource: poll intervals are whole units of time, of at least one.
- Sessions of the database: transactions are atomic steps, in which the locks of others show as a set of rows to be skipped; clocks of several hosts are one clock.
- Identifiers: jobs and leases have numbers whose order stands for the order of their UUIDs as text; other rows have their place in creation order.
- Stage names, error texts, idempotency keys, claim times, audit events, the document's own status and the search index.
- Organization names: NFKC, case folding and the word filter of `normalize_name` are one function of which only determinacy is used; lengths cut at 500 characters are not modelled.
- Document relationships, and the fields of accepted items besides document and organization.
- Files of the inbox that a user writes while a pass runs: users write between passes, and add files at any time.
- Several consume services over one folder, users who remove or replace files in the four directories, and names longer than a file system allows.
- SHA-256: equal contents stand for equal hashes. Uploads through `create_document` share the deduplication of `ingest_path` and are not modelled apart.
- Reading a mail message into parts, attachment names, and the mail server's connection beyond a fetch that fails.
- Text that is not in NFKC form, and pages without text in the page locators: normalization then drops their blank lines and positions shift.
- The regular expressions that find candidates, their confidences, and extraction comparisons: drafts of candidates are arbitrary, as far as they quote matches or verified proposals.
- The check of a comparison named in a promotion, and deletion of rows anywhere.
- Web routers, authentication, settings catalogue, the Paperless import, backup and release scripts.
