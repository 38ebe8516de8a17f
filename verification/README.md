# FileNest backend: verified models

FileNest organizes a user's files with the help of background jobs, human approvals and an agent
that answers questions about documents. This project models the logic of its backend in Dafny and
proves what that logic promises over every input, every run and every interleaving. Databases,
HTTP, the clock, the model provider and the file system are outside the model: a committed write is
one atomic step, and what the outside answers is arbitrary.

Run `dafny verify dfyconfig.toml` to check everything.

## What is modelled

**Background jobs** (`JobSystem`, `JobRuns`, `JobStore`, `JobWriters`, `JobRunner`, `JobAnswers`,
`JobScheduling`, `JobStranding`, `JobRecovery`, `JobRestarts`, `JobPersistence`, `JobLives`,
`JobServed`). The event-driven job record and the validator every record passes through; the store with
its compare-and-set on the revision and its partial column writes; any number of writers with stale
snapshots; the single-worker runner without a store as a sequence of locked steps, and on top of its
store over any number of processes that may die at any save, with what each call answers in both; the
recovery scan after a restart, also save by save among other writers.

**Approvals** (`OrganizationWorkflow`, `OrganizationDecisions`, `OrganizationInterleaving`,
`OrganizationOutcomes`, `OrganizationWedge`, `OrganizationAudit`). A decision is written to the
approval row and then to the workflow checkpoint, an edit the other way round, in two databases
without a common transaction. Each call is the list of atomic steps it takes; any number of calls
interleave, and a call that is never advanced again has crashed.

**Documents** (`DocumentContracts`, `DocumentParser`, `DocumentChunker`, `DocumentPages`). How the PDF
and DOCX loaders lay pages and blocks out in one text, the greedy line packer with its path for
over-long lines, and the page range and block positions a chunk reports.

**Agent runs** (`AgentLoop`, `AgentRecorder`, `AgentResume`, `Events`). The turn loop with its retries,
deadline and cancellation; the rows and the transcript a run leaves over crashes, recoveries and
resumes; the event stream that is rebuilt at every poll and must read like one log.

**Search and matching** (`KeywordRetrieval`, `Sorting`, `Matcher`, `FamilyTree`). Non-overlapping keyword
matches and their ranking; candidate folders that contain one another and the tree they are
offered in.

## Where the code and its intention part

- *A retry can strand a job.* The cancellation flag of a job record is set once and never cleared
  (backend/app/job_runner.py:327). After cancel, a retryable failure and a retry, the task can be told it
  is cancelled while its job is running; its finish is then refused and the job stays running for
  good. `JobStranding` reaches that state, whatever else is running or queued:
  `JobStranding.RetryStrandsExactly` names the retries that can strand their job,
  `JobScheduling.EndRefusedExactly` says exactly when a finish is refused, and
  `JobScheduling.CleanHistoriesStrandNothing` that nothing else strands a job. With a store the next
  process recovers it (`JobLives.RestartRecovers`).
- *An action can hide a job from the scan.* Cancelling or retrying a stored job registers it without a
  queue entry (backend/app/job_runner.py:653-668), and a scan passes over registered jobs (375-377). When
  the scan at startup failed, which the service survives (backend/app/main.py:154-156), such an action on
  a job a lost worker left active keeps it active until the process dies (`JobLives.EarlyActionStrands`,
  `JobLives.StuckUntilDeath`).
- *Approvals can wedge.* A decision that commits after an edit has read the approval, and before the edit
  checkpoints its plan, leaves the approval decided on a plan the checkpoint has replaced
  (backend/app/organization_decisions.py:100-146 against 196-224). Every later call is refused and neither
  store moves again. The execution gate stays shut, so safety holds. `OrganizationWedge.WedgesExactly`
  names the two steps that wedge and shows that no other move does, and `CrashesNeverWedge` shows that crashes alone never do.
- *Disabling proposals freezes a half-done edit.* Where an edit died between its two writes, its retry
  has to insert the plan's row, for which the policy must allow proposals
  (backend/app/organization_decisions.py:237-250). Until it does, that edit and every decision, a
  cancellation included, is refused (`OrganizationOutcomes.DisabledProposalsBlock`).
- *A resume leaves open calls open.* A resumed run asks the model again with the checkpointed messages
  (backend/app/agent_api.py:577-588). Calls of the last turn that have no result there are neither made
  nor answered: after a crash or a stop amid a turn, and always after the step limit, every later request
  carries calls without results. `AgentResume.RequestsCompleteExactly` gives the exact condition.
- *A run cancelled before its first reply cannot be resumed.* The step of a turn that was closed as
  cancelled or timed out before any reply keeps its index, a resume starts at that index, and
  `start_step` refuses it (backend/app/agent_observability.py:531-543), although such a run counts as
  resumable (backend/app/agent_recovery.py:24-26). Every resume then ends as failed.
- *A pending run's stream is rewritten.* The first event carries the run's present status, so a
  stream opened while a run is pending changes under the reader when the run starts
  (backend/app/events.py:306-317). From running on, the stream only grows.
- *Cancelling a waiting retry* is refused, but by the validator and not by the guard
  (backend/app/job_system.py:474-482 against 298-300); progress past the total likewise (79-86).
- *A root directory as candidate* is its own parent, and the recursion that builds the tree of
  candidates then goes as deep as one likes (core/matcher.py:595-616). By
  `FamilyTree.RecursionEndsExactly` it ends exactly when no candidate is a root, which is what
  `FamilyTree.BuildFamilyTree` asks for.

## Model

| member | source | states |
|---|---|---|
| JobSystem.BuildJob | backend/app/job_system.py:171-304 | a record is built exactly when it meets the whole lifecycle validator, and comes out valid with its payload digest |
| JobSystem.TransitionAcceptsExactly | backend/app/job_system.py:372-545 | a transition succeeds exactly when an explicit guard condition holds and it is neither the cancellation of a waiting retry nor progress past the total; these two are the only events that pass every guard and fail validation; the result is valid |
| JobSystem.TransitionAnswers | backend/app/job_system.py:372-545 | which error refuses which event, by the state of the job and the fields of the event alone |
| JobSystem.StartExactly | backend/app/job_system.py:413-441 | starting fails only by its guards: pending, room for an attempt, a new attempt id |
| JobSystem.ProgressExactly | backend/app/job_system.py:444-471 | progress reports are refused by the guards or, past the total only, by the progress record |
| JobSystem.FinishExactly | backend/app/job_system.py:495-523 | finishing fails only by its guards |
| JobRuns.StartEffect | backend/app/job_system.py:413-441 | starting appends one running attempt without progress, numbered and dated by the event, and touches nothing else |
| JobRuns.ReportEffect | backend/app/job_system.py:444-471 | a report changes the latest attempt's progress only, and a known total stays |
| JobRuns.CancelEffect | backend/app/job_system.py:474-492 | the first request dates the cancellation, a waiting job ends at once, a running one is asked to stop |
| JobRuns.FinishEffect | backend/app/job_system.py:495-523 | job and latest attempt are closed together with the same instant and error, each kind of finish with its own pair of statuses |
| JobRuns.RetryEffect | backend/app/job_system.py:526-545 | a retry waits again like a new job while its attempts are kept |
| JobRuns.RunKeepsHistory | backend/app/job_system.py:413-545 | between any two states of a run: attempts are append-only, closed ones frozen, progress never falls, a known total stays, the definition is constant, the revision counts the events |
| JobRuns.PendingAlwaysLeavesRoom | backend/app/job_system.py:526-545 | every pending job a run reaches has an unused attempt, though the validator alone would allow none |
| JobRuns.EventsMatchAttempts | backend/app/job_system.py:413-523 | start events and attempts correspond one to one, finish events of each kind and attempts of its outcome too |
| JobRuns.RunsAreBounded | backend/app/job_system.py:372-545 | at most 4*max_attempts - 1 events other than progress reports and repeated cancellation requests |
| JobRuns.BoundIsReached | backend/app/job_system.py:372-545 | and every new job has a run that reaches that bound |
| JobStore.SaveRoundTrips | backend/app/job_store.py:159-213 | when a save succeeds, the rows decode to exactly the submitted state although only some columns are written; other jobs are untouched; a refusal changes nothing |
| JobStore.SaveAnswers | backend/app/job_store.py:159-213 | which error refuses a save, in terms of the submitted state and the stored one, and that every other save succeeds |
| JobStore.CreateRoundTrips | backend/app/job_store.py:55-89 | a created row decodes to the candidate, and whatever is answered is stored; everything else stays |
| JobStore.CreateAnswers | backend/app/job_store.py:55-89 | a key that is stored is answered with its job when the identity is the same and with a conflict when it is not, and nothing changes; a new key adds exactly the candidate's row |
| JobStore.InsertedByAge | backend/app/job_store.py:103-124 | listing by age keeps oldest first with the id as tie-break |
| JobStore.SqlAlchemyJobStore.Get | backend/app/job_store.py:91-101 | a stored job is decoded and validated from its rows |
| JobStore.SqlAlchemyJobStore.ListUnfinished | backend/app/job_store.py:103-124 | exactly the unfinished jobs, oldest first, or the first row that does not decode |
| JobStore.SqlAlchemyJobStore.CreateOrGet | backend/app/job_store.py:55-89 | the tables and the answer are those of the create specification |
| JobStore.SqlAlchemyJobStore.RequireCompatibleAttempts | backend/app/job_store.py:301-318 | accepts exactly histories with the same attempts and at most one new one |
| JobStore.SqlAlchemyJobStore.SaveAttempts | backend/app/job_store.py:321-355 | updates each stored attempt's changeable columns and appends the new one |
| JobStore.SqlAlchemyJobStore.SaveTransition | backend/app/job_store.py:159-213 | the tables and the answer are those of the save specification |
| JobWriters.SaveOfSuccessor | backend/app/job_store.py:175-210 | saving a successor of any earlier state succeeds exactly if nothing was saved since, and a conflict changes nothing |
| JobWriters.SaveSucceedsIffCurrent | backend/app/job_store.py:159-213 | among any number of writers a save succeeds exactly for the current snapshot; a conflict is raised only for a stale one |
| JobWriters.AlwaysConsistent | backend/app/job_runner.py:551-570 | after any calls of any writers the stored states of every job form one run of the transition from its new state |
| JobWriters.RevisionCountsSuccesses | backend/app/job_store.py:159-213 | the stored revision is the number of successful saves: no update is lost or applied twice |
| JobRunner.SingleProcessJobRunner.Submit | backend/app/job_runner.py:191-264 | registers and queues the job of the request, field by field, or returns the one with the same key and identity |
| JobRunner.SingleProcessJobRunner.Cancel | backend/app/job_runner.py:307-328 | applies the request and sets the record's flag |
| JobRunner.SingleProcessJobRunner.Retry | backend/app/job_runner.py:330-351 | queues a retryable failure again, its flag untouched, or forgets the record when the executor is down |
| JobRunner.SingleProcessJobRunner.BeginTask | backend/app/job_runner.py:434-456 | a queue entry starts an attempt or is stale |
| JobRunner.SingleProcessJobRunner.ReportProgress | backend/app/job_runner.py:490-508 | progress goes through the transition, and the latest attempt then shows the reported numbers and phase |
| JobRunner.SingleProcessJobRunner.RaiseIfCancelled | backend/app/job_runner.py:510-517 | the task is told exactly when the flag is set or cancellation is requested |
| JobRunner.SingleProcessJobRunner.FinishAttempt | backend/app/job_runner.py:457-536 | the end of a body is recorded if the transition still allows it, and the job then ends as the body did |
| JobAnswers.SubmitAnswers | backend/app/job_runner.py:191-264 | the answer to every submission by the request and the jobs in memory: closed, malformed, a new job as requested, the one with the key, or a conflict |
| JobAnswers.CancelAnswers | backend/app/job_runner.py:307-328 | the answer to every cancellation by the status of the job, and all that changes |
| JobAnswers.RetryAnswers | backend/app/job_runner.py:330-351 | exactly a failed job whose last attempt may be retried and that has attempts left is queued again |
| JobAnswers.BeginAnswers | backend/app/job_runner.py:434-456 | a waiting job at the head of the queue starts its next attempt under a new id; any other entry only leaves the queue |
| JobAnswers.ReportAnswers | backend/app/job_runner.py:490-508 | exactly the reports that neither fall nor contradict or pass the total are taken, and shown as reported |
| JobAnswers.EndAnswers | backend/app/job_runner.py:457-488 | a body that returns leaves its job succeeded, one that raises leaves it failed with its code and retryability, one that says cancelled leaves it cancelled, each at that moment; only saying so unasked changes nothing |
| JobAnswers.CleanEndIsTaken | backend/app/job_runner.py:457-488 | without a retry of a flagged record so far every end of a body is taken that way |
| JobScheduling.StepKeepsSound | backend/app/job_runner.py:191-536 | one locked step keeps jobs and index inverse, queue, worker and bodies consistent |
| JobScheduling.HistoriesSound | backend/app/job_runner.py:191-536 | in every history: index and jobs inverse, one queue entry per pending job, at most one job active, one body per attempt |
| JobScheduling.BodiesBounded | backend/app/job_runner.py:434-488 | a task body runs once per attempt and at most max_attempts times |
| JobScheduling.EndRefusedExactly | backend/app/job_runner.py:510-536 | a finish is refused exactly when the task says cancelled while its job is running, which takes a leftover flag |
| JobScheduling.CleanHistoriesStrandNothing | backend/app/job_runner.py:330-351 | without a retry of a flagged record every body's end is accepted and no job stays active without a worker |
| JobStranding.FlaggedRetryCanStrand | backend/app/job_runner.py:330-351 | after every accepted retry of a flagged record, whatever is running or queued, the worker can go on until it is idle with the job still running and its finish refused |
| JobStranding.RetryStrandsExactly | backend/app/job_runner.py:330-351 | in a history without such retries so far, the worker can go on to strand a job after its retry exactly when the retry is accepted and finds the flag set |
| JobStranding.StrandedForever | backend/app/job_runner.py:519-536 | a stranded job stays active in every later state |
| JobStranding.LeftoverFlagReachable | backend/app/job_runner.py:307-351 | submit, start, cancel and a retryable failure lead to such a record |
| JobRecovery.ScanOneConverges | backend/app/job_runner.py:362-432 | recovering an undisturbed unfinished job never fails: legal transitions take it to its destination, the evidence of the interruption on its last attempt, store and answer agree, it is queued exactly when pending |
| JobRecovery.FailRecoveryConverges | backend/app/job_runner.py:601-628 | a job whose task is gone ends failed without a retry, with an attempt that says why |
| JobRecovery.RecoverConverges | backend/app/job_runner.py:572-599 | an interrupted attempt is closed with its code at that moment, and the job queued again while attempts remain |
| JobRecovery.ScanConverges | backend/app/job_runner.py:362-432 | a completed scan recovers every unfinished job, reports them in order, queues exactly the pending ones, leaves the rest alone |
| JobRecovery.NothingLeftActive | backend/app/job_runner.py:362-432 | after a scan no stored job is running or asked to cancel |
| JobRecovery.InterruptionsBounded | backend/app/job_runner.py:572-599 | over any crashes and restarts, scans that die between two saves included, a job is interrupted at most max_attempts times and can always be recovered |
| JobRestarts.StoredIsRecoverable | backend/app/job_store.py:103-124 | whatever writers did, every stored job loads, is valid, and can be started if it waits |
| JobRestarts.RestartsRecover | backend/app/job_runner.py:362-432 | after any calls of any writers, one scan recovers every unfinished job, leaves no stored job active, and leaves a store that calls could have left, so the next restart finds the same |
| JobRestarts.ScannerIsScan | backend/app/job_runner.py:362-432 | taken save by save, the scan comes to the same store, report and queue |
| JobRestarts.ScanAmongWriters | backend/app/job_runner.py:362-432 | whatever other writers do between any two saves of a scan, and after whichever save it dies, all of it is a list of writer calls and what the scan holds was stored |
| JobPersistence.PersistentJobRunner.Submit | backend/app/job_runner.py:191-264 | a registered job with its key, the stored one recovered and queued if it waits, or a new row |
| JobPersistence.PersistentJobRunner.GetActionRecord | backend/app/job_runner.py:653-668 | an action works on the registered record or registers the stored job, not queued |
| JobPersistence.PersistentJobRunner.Cancel | backend/app/job_runner.py:307-328 | the request is saved, then the record and its flag change; a lost race is reported |
| JobPersistence.PersistentJobRunner.Retry | backend/app/job_runner.py:330-351 | saved as waiting, then queued, or forgotten in memory alone when the executor is down |
| JobPersistence.PersistentJobRunner.BeginTask | backend/app/job_runner.py:434-456 | a start is saved before its body runs; after a lost race the record shows what is stored |
| JobPersistence.PersistentJobRunner.ReportProgress | backend/app/job_runner.py:490-508 | progress is saved before the record changes |
| JobPersistence.PersistentJobRunner.FinishAttempt | backend/app/job_runner.py:519-536 | the end of a body is saved if the transition allows it |
| JobServed.StoreRefines | backend/app/job_runner.py:307-570 | on registered jobs the runner with a store does to memory what the one without does, and memory stays what is stored |
| JobServed.EndIsStored | backend/app/job_runner.py:457-570 | however a body ends, the stored job and the one in memory end alike, at that moment |
| JobServed.SubmitServed | backend/app/job_runner.py:191-264 | a submission is refused exactly when the runner is closed, the request malformed or its key stored for another job; otherwise it is answered with the stored job of its key, or with the new job it asks for |
| JobServed.RepeatServed | backend/app/job_runner.py:214-264 | a repeated request is answered with the stored job, whether it is in memory or was left by an earlier process; it changes only where it has to be recovered |
| JobServed.NewServed | backend/app/job_runner.py:191-264 | a request with a new key stores, registers and queues exactly its job |
| JobServed.ActionsReadTheStore | backend/app/job_runner.py:653-668 | cancelling or retrying a job that is not in memory is the same on its stored record, and refused when there is none |
| JobServed.OvertakenIsRefused | backend/app/job_runner.py:307-351 | an action that would be taken, on a record another process has overtaken, stores nothing, changes nothing and is refused |
| JobServed.OvertakenDoesNotStart | backend/app/job_runner.py:434-456 | a start that lost a race runs no body, and the record takes what is stored |
| JobLives.SubmitKeepsNode | backend/app/job_runner.py:191-264 | a submission keeps memory and store in agreement and everything below |
| JobLives.LivesSound | backend/app/job_runner.py:191-628 | over any processes, calls, scans and deaths at any save: memory is what is stored, the store is one that writer calls can leave, so each job in it is the end of one legal run, and recoverable; index, queue, worker and log of bodies fit the jobs |
| JobLives.BodiesOnce | backend/app/job_runner.py:434-488 | over all processes together a task body is started at most once per attempt and at most max_attempts times |
| JobLives.RestartRecovers | backend/app/job_runner.py:362-432 | however a process died, one scan of the next leaves no job active, queues exactly the pending ones in order, stranded jobs included |
| JobLives.NothingIsLost | backend/app/job_runner.py:362-640 | from then on every pending job waits in the queue and every active one is the worker's, unless its finish was refused |
| JobLives.CoveredStays | backend/app/job_runner.py:191-536 | no call and no further scan changes that until the runner is shut down |
| JobLives.EarlyActionStrands | backend/app/job_runner.py:653-668 | an action on an active job before a scan has come to it leaves it active without a worker |
| JobLives.StuckUntilDeath | backend/app/job_runner.py:519-536 | a job active without a worker stays so, in the store too, until its process dies |
| JobPersistence.PersistentJobRunner.ApplyEventToState | backend/app/job_runner.py:551-570 | one transition saved over the held state |
| JobPersistence.PersistentJobRunner.RecoverPersistedState | backend/app/job_runner.py:572-599 | the recovery of one state, also when a save loses a race |
| JobPersistence.PersistentJobRunner.FailPersistedState | backend/app/job_runner.py:601-628 | the failing recovery of one state |
| JobPersistence.PersistentJobRunner.EnqueuePersistedState | backend/app/job_runner.py:630-640 | registers the job, its key and a queue entry |
| JobPersistence.PersistentJobRunner.RecoverPersistedJobs | backend/app/job_runner.py:362-432 | the whole scan does to store, records and queue what the scan specification says |
| OrganizationWorkflow.WorkflowRuns | backend/app/workflow.py:110-191 | however driven, a workflow's details stay valid, its revision counts events, its workspace and files stay, and nothing follows an end |
| OrganizationWorkflow.TransitionExactly | backend/app/workflow.py:110-191 | which event moves which status where, with which details, and what refuses every other |
| OrganizationWorkflow.RepeatedEdit | backend/app/organization_planning.py:201-236 | asking a staged plan for the changes it was made from asks for nothing new |
| OrganizationDecisions.OrganizationCoordinator.RunCheckpointedEvent | backend/app/workflow_graph.py:143-181 | an event is applied to whatever the checkpoint holds, a new plan and a completion only if validated, or nothing changes |
| OrganizationDecisions.OrganizationCoordinator.ApplyOrganizationDecision | backend/app/organization_decisions.py:79-151 | both stores and the answer are those of the decision's steps run to the end |
| OrganizationDecisions.OrganizationCoordinator.ApplyOrganizationPlanEdit | backend/app/organization_decisions.py:154-271 | both stores and the answer are those of the edit's steps run to the end |
| OrganizationDecisions.OrganizationCoordinator.EditOperationPlan | backend/app/organization_decisions.py:236-262 | the edit's last transaction, with a staged plan's missing row, which the policy must allow |
| OrganizationDecisions.OrganizationCoordinator.CheckpointReplacement | backend/app/organization_decisions.py:274-292 | the replacement is checkpointed at the next revision or the checkpoint is unchanged |
| OrganizationInterleaving.CommitDecisionIsSound | backend/app/services.py:530-652 | taking a decision moves approval, plan row and operation together |
| OrganizationInterleaving.ReplacementChecked | backend/app/organization_decisions.py:274-292 | a replacement is checkpointed exactly over the waiting plan it replaces |
| OrganizationInterleaving.ReplacementTaken | backend/app/services.py:472-493 | the approval takes a replacement exactly from the plan checkpointed before it, while it waits there |
| OrganizationInterleaving.ThreadStepIsSound | backend/app/organization_decisions.py:79-271 | one step of any call keeps both stores sound |
| OrganizationInterleaving.TracesAreSound | backend/app/organization_decisions.py:79-271 | every interleaving of any number of calls, with crashes anywhere, keeps both stores and all calls under way sound |
| OrganizationOutcomes.DecidedOnlyAsApproved | backend/app/organization_api.py:636-777 | in every interleaving a checkpointed decision is the approval row's for the same plan, the gate opens exactly with a ready checkpoint, and the execution's own check agrees |
| OrganizationOutcomes.DecisionAlone | backend/app/organization_decisions.py:79-151 | a decision left alone succeeds exactly when it fits, settles both stores, and otherwise changes neither |
| OrganizationOutcomes.EditAlone | backend/app/organization_decisions.py:154-271 | an edit left alone succeeds exactly when it fits: the files are known, asked for and found where the plan has them, the preview, policy and validator agree, the plan is new; both stores then hold the plan with the found sources and the asked targets, and otherwise neither changes |
| OrganizationOutcomes.DecisionAnswers | backend/app/organization_decisions.py:79-151 | which error refuses a decision, by what the stores hold |
| OrganizationOutcomes.EditAnswers | backend/app/organization_decisions.py:154-271 | which error refuses an edit, by what the stores, the request and the surroundings hold |
| OrganizationOutcomes.UnknownIsRefused | backend/app/organization_decisions.py:88-174 | without a checkpoint or an approval every decision and edit is refused and changes nothing |
| OrganizationOutcomes.UsedIdIsRefused | backend/app/organization_decisions.py:200-224 | a plan with the id of a stored plan is not built, and nothing changes |
| OrganizationOutcomes.DecisionSurvivesCrash | backend/app/organization_decisions.py:100-146 | after a crash anywhere, repeating the decision succeeds exactly when it would have, and any other is refused |
| OrganizationOutcomes.EditSurvivesCrash | backend/app/organization_decisions.py:187-262 | after a crash anywhere, nothing happened, or the plan is staged, every decision is refused and the same edit fits exactly while the policy allows proposals, or the edit is done |
| OrganizationOutcomes.DisabledProposalsBlock | backend/app/organization_decisions.py:237-254 | while a plan is staged and proposals are disabled, every decision and every edit is refused and changes neither store |
| OrganizationWedge.CrashesNeverWedge | backend/app/organization_decisions.py:79-271 | calls one after another, each dying anywhere, never wedge the stores |
| OrganizationWedge.WedgesExactly | backend/app/organization_decisions.py:113-231 | of all moves, exactly two steps of a call wedge: an edit staging its plan over a decision, a decision committing under an edit |
| OrganizationWedge.WedgedForever | backend/app/organization_decisions.py:79-271 | no step of any call changes wedged stores |
| OrganizationWedge.WedgedToTheEnd | backend/app/organization_decisions.py:79-271 | a wedge outlives every continuation, and no decision or edit fits |
| OrganizationWedge.WedgeIsReachable | backend/app/organization_decisions.py:113-231 | from every plan, any decision and any edit that could go through can wedge the stores, the decision committing before the edit has built its plan |
| OrganizationAudit.AuditRetellsTheApproval | backend/app/services.py:626-640 | the audit log is the edits the approval took, in order, then its one decision, and counts the operation's revision |
| DocumentContracts.ValidatePageMetadata | backend/app/document_contracts.py:117-145 | passes exactly documents with consecutive, ordered pages inside the text, and says which rule a refused one breaks first |
| DocumentContracts.ValidateSourcePositions | backend/app/document_contracts.py:147-158 | passes exactly documents with ordered positions inside the text, and says which rule a refused one breaks first |
| DocumentParser.LoadPdf | backend/app/document_parser.py:133-162 | slicing the text at a page's range gives the page, ranges two characters apart, numbered from one; no pages is an error |
| DocumentParser.LoadDocx | backend/app/document_parser.py:292-322 | slicing the text at a block's range gives the block, and its position has the paragraph's number or the cell's table, row and column |
| DocumentParser.LoadedPdfIsValid | backend/app/document_contracts.py:117-158 | what the PDF loader builds meets the document contract |
| DocumentParser.LoadedDocxIsValid | backend/app/document_contracts.py:117-158 | what the DOCX loader builds meets it |
| DocumentChunker.ChunkDocument | backend/app/document_chunker.py:11-101 | consecutive non-empty slices numbered from 0 with the lines of their first and last character, each reaching as far as an admissible piece can; a non-positive limit is an error |
| DocumentChunker.AppendSegments | backend/app/document_chunker.py:54-65 | the segments of one over-long line |
| DocumentChunker.AppendChunk | backend/app/document_chunker.py:104-145 | the chunk of an interval, with its pages and positions |
| DocumentChunker.FewestChunks | backend/app/document_chunker.py:33-101 | no cutting that keeps short lines whole and over-long lines to themselves has fewer pieces; the chunks are such a cutting |
| DocumentChunker.ShortLinesCutAtEnds | backend/app/document_chunker.py:33-101 | without over-long lines every cut at line ends into small enough pieces is such a cutting |
| DocumentChunker.ChunksConcatenate | backend/app/document_chunker.py:104-145 | the chunks' texts concatenate to the text, none empty or too long |
| DocumentChunker.ChunksAreDetermined | backend/app/document_chunker.py:11-145 | a document has exactly one list of chunks with these properties |
| DocumentPages.PageRangeIsOrdered | backend/app/document_chunker.py:148-187 | in any valid PDF both ends of a page range are given or neither, in order |
| DocumentPages.PositionsAreFiltered | backend/app/document_chunker.py:190-203 | a chunk keeps exactly the positions that overlap it, in their order and as often as they stand there |
| DocumentPages.ChunksAreValid | backend/app/document_contracts.py:186-207 | the chunk contract never refuses a chunk of a valid document |
| DocumentPages.LoadedPdfAlwaysHasPages | backend/app/document_chunker.py:148-187 | a piece of a loader-built PDF always has a page range: its first and last page, or the two pages whose separator it lies in, empty pages included |
| AgentLoop.AgentLoop.BoundaryStatus | backend/app/agent_loop.py:758-769 | cancellation is answered before the deadline |
| AgentLoop.AgentLoop.WaitBeforeRetry | backend/app/agent_loop.py:735-755 | the doubling delay or what is left until the deadline, whichever is less |
| AgentLoop.AgentLoop.RequestModelTurnWithRetries | backend/app/agent_loop.py:675-732 | at most max_model_retries + 1 requests, all with the same messages, counted, and inside the boundary; the reply is the model's to the last of them; between two of them exactly the doubling wait, none past the deadline; failure only for an error that may not be retried or the last attempt |
| AgentLoop.AgentLoop.RunToolCalls | backend/app/agent_loop.py:375-472 | calls are run once each, in order, inside the boundary: the result of each is the answer to that call, under its id |
| AgentLoop.AgentLoop.RunTurn | backend/app/agent_loop.py:263-480 | one turn adds the model's reply and its own calls' results, or nothing when no reply came, and ends the run only as its status says |
| AgentLoop.AgentLoop.Run | backend/app/agent_loop.py:215-482 | the transcript is the input and whole turns, every reply the model's and every result its own call's answer; completed and failed leave no call open, cancelled and timed out a prefix of the last turn's answered, max steps none; requests and waits are bounded; every act happens inside the boundary |
| AgentLoop.TurnsCountReplies | backend/app/agent_loop.py:263-264 | the turns reported are the assistant messages added |
| AgentRecorder.SqlAlchemyAgentRunRecorder.QueueResume | backend/app/agent_observability.py:460-488 | exactly a resumable run is queued again |
| AgentRecorder.SqlAlchemyAgentRunRecorder.StartExistingRun | backend/app/agent_observability.py:490-504 | a pending run is started, a running one goes on, any other is refused |
| AgentRecorder.SqlAlchemyAgentRunRecorder.CheckpointRun | backend/app/agent_observability.py:843-860 | the number of model turns is committed |
| AgentRecorder.SqlAlchemyAgentRunRecorder.StartStep | backend/app/agent_observability.py:506-556 | a step is created, reopened if failed, or refused when closed otherwise |
| AgentRecorder.SqlAlchemyAgentRunRecorder.NextMessageSequence | backend/app/agent_observability.py:558-565 | one more than the largest number so far |
| AgentRecorder.SqlAlchemyAgentRunRecorder.AddMessage | backend/app/agent_observability.py:940-974 | appends a message under an unused number |
| AgentRecorder.SqlAlchemyAgentRunRecorder.StartToolCall | backend/app/agent_observability.py:680-702 | appends a call under an unused number |
| AgentRecorder.SqlAlchemyAgentRunRecorder.FinishStep | backend/app/agent_observability.py:764-814 | closes an open step once |
| AgentRecorder.MoveKeepsLife | backend/app/agent_observability.py:506-860 | each commit, crash, recovery, resume and start keeps the rows and the worker's counters consistent |
| AgentRecorder.EndIsRecorded | backend/app/agent_loop.py:610-632 | a turn that ends closes its own step with the status it ended with; then the run ends with it too, or its next step begins |
| AgentRecorder.NumbersNeverGap | backend/app/agent_recovery.py:131-163 | whatever crashed, steps and messages are contiguous from 0 and tool calls from 1, so the inspector never finds a gap |
| AgentRecorder.StepAcceptedExactly | backend/app/agent_api.py:577-588 | a worker starts its turn exactly unless that turn's step was closed as cancelled or timed out without a reply |
| AgentRecorder.StuckForGood | backend/app/agent_observability.py:531-543 | such a step keeps the run from ever getting another reply |
| AgentRecorder.CancellingStrandsTheRun | backend/app/agent_observability.py:531-543 | one cancellation before the first reply leads there, with a run that counts as resumable |
| AgentResume.LivesFit | backend/app/agent_loop.py:240-480 | over any crashes and resumes the checkpoint is the input and whole turns, the results of each answering its first calls in order, and it counts the turns |
| AgentResume.ContextGrows | backend/app/agent_observability.py:843-860 | no crash and no resume takes back a checkpointed message |
| AgentResume.CallsAreMadeOnce | backend/app/agent_loop.py:375-440 | each call of each turn is made at most once over all workers, and every result is of a call that was made |
| AgentResume.CheckpointsKeepWhatCame | backend/app/agent_loop.py:263-440 | a checkpoint holds what came from outside, unchanged: each request asks with it, the reply follows, then each answer under the id of its own call |
| AgentResume.CompletedIsFinal | backend/app/agent_recovery.py:24-26 | a completed run is over for good, one that ended otherwise can be resumed |
| AgentResume.OpenForGood | backend/app/agent_api.py:577-588 | a call a stopped worker left open is never answered |
| AgentResume.RequestsCompleteExactly | backend/app/agent_api.py:577-588 | the model is asked with every call answered exactly as long as every resume found a checkpoint without open calls |
| AgentResume.StepLimitLeavesOpen | backend/app/agent_loop.py:355-374 | after the step limit every later request carries open calls |
| AgentResume.OpenResumeReachable | backend/app/agent_api.py:1402-1494 | from every input such a resume can come about |
| Events.SortedIsSorted | backend/app/events.py:329 | tool calls are told in the order of their numbers, none lost |
| Events.BuildAgentRunEventStream | backend/app/events.py:293-410 | events numbered from one: the start or resume of the run, of every call row its request and start once and, when finished, its own outcome once, no other call event, and the ending its status and code ask for |
| Events.StoryTellsRun | backend/app/events.py:293-410 | the story the other results are about tells exactly this of the rows |
| Events.CompletedIsTold | backend/app/events.py:329-371 | the four events of a completed call stand together: requested, started, its outcome, completed |
| Events.EndIsToldOnce | backend/app/events.py:373-408 | the stream tells of an end exactly when the run has ended, as its last event and nowhere else |
| Events.StepExtendsStory | backend/app/agent_loop.py:404-450 | while a run is running each committed step only adds to the end of its story, and what it adds is the call started, its outcome, or the run's end as committed |
| Events.StartingRewritesTheFirstEvent | backend/app/events.py:306-317 | a pending run that starts changes the story's first event |
| Events.LifecycleExtendsStory | backend/app/events.py:293-410 | from running to the end every later story extends every earlier one |
| Events.TerminalIsLast | backend/app/agent_api.py:1294-1303 | nothing is recorded after a run's end |
| Events.StreamAgentRunEvents | backend/app/agent_api.py:1267-1304 | for every schedule of polls and every cursor the reader, who reads the run and then its calls at separate moments, sends exactly what follows the cursor in the latest story it saw, each event once and in order |
| Events.SeenExtends | backend/app/agent_api.py:1267-1304 | although run and calls are read apart, what a later round sees only extends what an earlier one saw |
| KeywordRetrieval.FindMatchRanges | backend/app/keyword_retrieval.py:58-74 | real occurrences, in order, none overlapping, none left that would fit |
| KeywordRetrieval.MostMatches | backend/app/keyword_retrieval.py:58-74 | no set of pairwise disjoint occurrences is larger than the matches |
| KeywordRetrieval.SearchKeywordDocuments | backend/app/keyword_retrieval.py:99-113 | exactly the documents in which some stretch folds to the keyword without the white space around it, in order; a keyword of white space alone is an error |
| KeywordRetrieval.SearchKeywordResults | backend/app/keyword_retrieval.py:116-145 | one result per matching document, by falling score and then dataset order |
| KeywordRetrieval.ResultsAreTheDocuments | backend/app/keyword_retrieval.py:99-145 | the results show exactly the documents the plain search finds |
| KeywordRetrieval.ScoreIsMost | backend/app/keyword_retrieval.py:137-141 | a score is the most disjoint occurrences its document has: there are that many, and never more |
| KeywordRetrieval.SourcesAreReal | backend/app/keyword_retrieval.py:77-96 | a source shows the path and a text that folds to the keyword, and its lines are one more than the line ends before it |
| Matcher.HasFamilyOverlap | core/matcher.py:443-470 | true exactly when one candidate contains another |
| Matcher.ExtractFamilyGroup | core/matcher.py:473-514 | the members and the others, each sorted best first and stably |
| Matcher.FamilySplit | core/matcher.py:473-514 | the split loses nothing, members are exactly the candidates in a family, and there are some exactly when there is overlap |
| Matcher.ByScoreSorts | core/matcher.py:510-512 | the sort is by falling score, loses nothing and keeps equals in order |
| Matcher.ResolveFamily | core/matcher.py:517-566 | a child is chosen exactly when the best is good enough or the only one fairly good; otherwise all candidates come back |
| FamilyTree.BuildFamilyTree | core/matcher.py:569-618 | the recursion ends and builds the tree of the specification |
| FamilyTree.RecursionEndsExactly | core/matcher.py:595-616 | the calls of the recursion nest to every depth exactly if a candidate is a root directory |
| FamilyTree.RootIsItsOwnChild | core/matcher.py:595-603 | a root directory among the candidates is its own child |
| FamilyTree.TreeShowsExactly | core/matcher.py:584-618 | a candidate is shown exactly when every folder between it and its topmost candidate ancestor is a candidate |
| FamilyTree.TopmostExists | core/matcher.py:584-593 | every candidate has exactly one topmost candidate ancestor |
| FamilyTree.NoNodeTwice | core/matcher.py:605-618 | no folder has two node entries |
| FamilyTree.TreeInOrder | core/matcher.py:595-618 | every node lists exactly the candidates right below it, best first, and follows the node that lists it |

## Left out

- Routes, dependency wiring, the MCP server, the model and embedding clients, settings, the command
  line, the desktop application and the database migrations: plumbing without decisions of its own.
- Sessions, locking and constraints of the databases beyond the keys named in the model; a committed
  transaction is one atomic step. In particular the re-read after a lost compare-and-set inside one
  approval transition is part of that step.
- Hashes are injective tokens, UUIDs fresh numbers, JSON structured data, timestamps whole numbers;
  UTC conversion, schema versions and the patterns on codes and paths are not modelled. Ordering
  ties between jobs are broken by the number of the id, not its text.
- Primary-key clashes of attempt ids between different jobs, and rows whose payload is not JSON.
- JobRunner.SingleProcessJobRunner.Shutdown: closing the runner is one step; waiting for the worker is the
  history going on until the queue is empty.
- JobRunner.SingleProcessJobRunner.Submit: the runner without a store; with one it is
  `JobPersistence.PersistentJobRunner.Submit`.
- `JobLives` gives the store to one process at a time, as the runner asks for; several writers are the
  subject of `JobWriters` and `JobRestarts`. An executor that refuses work is the one a shutdown closed.
- JobPersistence.PersistentJobRunner.RecoverPersistedJobs: whether a task can be built for a job is a parameter.
- The listing of jobs with limits and filters, and the registry of task handlers.
- OrganizationDecisions.OrganizationCoordinator.ApplyOrganizationPlanEdit: what building a plan finds in the
  file system, whether the policy allows proposals, and the verdict of the plan validator are parameters
  of each step; the order of
  the operations in a plan is not kept.
- Creation of a workflow starts the model once both stores are written; a crash before that leaves a
  checkpoint no call can find. Rows missing from before a migration are not modelled, nor is a
  checkpoint that no longer parses.
- File moves, quarantine and undo, and the workflow event stream built from them.
- DocumentChunker.ChunkDocument: the division of a text into lines is any division into non-empty parts.
- Reading PDF and DOCX files: the loaders start from the texts of pages and blocks.
- AgentLoop.AgentLoop.Run: the summed metrics are not modelled; times are real numbers without rounding.
- AgentRecorder.SqlAlchemyAgentRunRecorder.AddMessage: message contents, model runs' figures and the terminal
  records of tool calls are not kept; an error while recording ends the worker like a failed run. The
  transcript over crashes is `AgentResume`'s, without the rows.
- Events.StreamAgentRunEvents: the flag for a resumed run is fixed while a reader follows; one reader that
  finishes clears it for the others.
- KeywordRetrieval.SearchKeywordDocuments: the white space around a keyword is spaces, tabs and line ends.
- KeywordRetrieval.FindMatchRanges: letter case is folded character by character, so foldings that change the
  length are not covered.
- Similarity scores of folder names, the choice among embeddings, the evaluation of data sets and the
  status tables of operations: library or floating-point results, and finite tables.
