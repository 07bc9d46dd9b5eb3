# Kronika (FrameNest) verification model

This project models six protocols, transformations and codecs of the Kronika repository in Dafny and proves
what they are for: over every input, every run, and every point at which a command, a provider or the process
itself may fail.

`dafny verify dfyconfig.toml` checks everything.

## How it is laid out

| Part of the system | Files |
|---|---|
| Text and JSON as the sources see them | `Text.dfy`, `Json.dfy`, `WireTexts.dfy` |
| Research coordinator: one durable operation at a time, with admission, claim, submission, polling, completion, cancellation, cleanup, recovery and the budget | `ResearchDomain.dfy`, `ResearchStore.dfy`, `Research.dfy`, `ResearchLaws.dfy`, `ResearchSteps.dfy`, `ResearchTheorems.dfy`, `ResearchLimits.dfy`, `ResearchLedger.dfy`, `ResearchBudget.dfy`, `ResearchCompletion.dfy`, `ResearchOutcomes.dfy` |
| Credential deployment: three live files, a recovery directory, install, acceptance, rollback | `CredentialHost.dfy`, `Credential.dfy`, `CredentialLaws.dfy`, `CredentialTheorems.dfy`, `CredentialRuns.dfy`, `CredentialWitnesses.dfy`, `CredentialScript.dfy` |
| Release engine: lock, staging, publication, cutover, rollback, any number of operators | `ReleaseHost.dfy`, `Release.dfy`, `ReleaseLaws.dfy`, `ReleaseTheorems.dfy`, `ReleaseScript.dfy`, `ReleaseShared.dfy` |
| Document rendering: a Markdown subset to HTML | `Html.dfy`, `Inline.dfy`, `Markdown.dfy`, `MarkdownLaws.dfy`, `MarkdownOrder.dfy`, `MarkdownVisible.dfy`, `InlineLaws.dfy`, `MarkdownLines.dfy` |
| Media analysis: versioned claims, bounded attempts, keyset-paged draining | `AnalysisExecutor.dfy`, `AnalysisRuns.dfy`, `AnalysisLaws.dfy`, `AnalysisOutcomes.dfy`, `AnalysisConcurrent.dfy`, `AnalysisDrain.dfy` |
| Companion review and attach: tag mapping, apply requests, cursors, chunked transfer, inbox merge | `CompanionTags.dfy`, `CompanionApply.dfy`, `Base64.dfy`, `Cursor.dfy`, `Attach.dfy`, `Inbox.dfy` |

## How failure is modelled

* **Research and analysis.** Every public call has a plan: the sequence of port events it performs, given what the
  outside answers. The class methods are proved to perform exactly their plan. A crash, or a port that raises,
  leaves an arbitrary prefix of the plan behind, and a run is any sequence of calls, each cut anywhere. A call
  that changes nothing in the store (a poll, a remote cancellation, a remote release) is not an event of its own.
* **Credential deployment.** Each script is split at its sub-commands. Each sub-command meets a fate: it works, or
  fails having done nothing, part, or all of its work; when the fates run out the process is gone. The host after
  every sub-command is kept in a trace.
* **Release engine.** The same, and as long as a run does not hold the lock, other operators may make anything of
  the host before each command, except that no published release goes away. Every command is logged with the host
  right before and right after it. `ReleaseShared.dfy` then puts any number of such runs on one host, their commands
  interleaved in any way, and shows that what each run takes for granted about the others is true there.
* **Analysis, concurrently.** `AnalysisConcurrent.dfy` cuts executions and imports into their single transactions and
  lets any number of them take turns in any order, some never finishing. Left alone, such an execution is the plan
  above.
* **What each operation decides.** The plans and specifications follow the program. `ResearchOutcomes.dfy`,
  `AnalysisOutcomes.dfy`, `ReleaseScript.dfy`, `CredentialScript.dfy`, `MarkdownLines.dfy`, `InlineLaws.dfy` and
  `WireTexts.dfy` say a second time, independently of them and in the program's own codes, commands and characters,
  what comes out: the world after a call, the list of commands with the answer each must give, the HTML of a line.
* **Analysis draining.** Every blocking call that comes back is logged with what others did meanwhile; a pass is
  specified as a log of such calls, and its theorems are about those logs.

## What turned out differently from what one might expect

* Block order is not always input order in rendered documents (`MarkdownLaws.BlockOrderIsNotInputOrder`). It is if
  and only if, outside fences, no prose line directly follows a list item (`MarkdownOrder.OrderIsKeptIff`).
* A research request without a remote handle that is running or has been cancelled is left by no call; every other
  unfinished one can be ended by one call (`ResearchLimits.CanFinishIff`, `ResearchLimits.StuckForever`). A request
  found between its claim and the provider's answer goes to `SUBMISSION_UNKNOWN` by recovery and by nothing else,
  but its own cancellation, if it comes first, makes it one of the stuck ones (`ResearchLimits.LostSubmission`).
* A crash between the save that ends a request and the ledger leaves a reservation that no call settles, and so
  does any settlement of unknown cost; from then on no request is admitted (`ResearchLedger.UnsettledBlocksForever`).
  A call that is not cut short never leaves such a gap (`ResearchLedger.WholeCallsLeaveNoGap`).
* A completion that commits and then raises stores the document and loses the row's binding to it, unless the row was
  bound before (`ResearchCompletion.BindingSurvivesIff`). As every retry then meets the document already stored, only
  its own cancellation can end such a request, and never as saved (`ResearchCompletion.OrphanForever`,
  `ResearchCompletion.CancelOfOrphan`).
* A single settlement above its reservation can take a day or a month past its limit; it is the only one that can,
  and nothing is admitted after it (`ResearchBudget.BudgetIsKept`).
* The backup's `if test -e` reads a probe that cannot run as "absent", and the restore then removes the file. After a
  plain error each file is back if and only if its probe did not miss it
  (`CredentialTheorems.PlainErrorRestoresIff`); `CredentialWitnesses.MissedFilesAreLost` gives the run that loses
  them, for every host. The credential is written outside `set -e`: a deployment that reports success installed the
  secret if and only if the fate of that one write says so (`CredentialRuns.DeployedMeans`), and on every
  host a write that is cut short can be deployed (`CredentialWitnesses.TornCredentialIsDeployed`).
* A switch whose rename failed leaves `current.next` behind; the switch of the rollback then puts its own link inside
  that directory and moves the leftover one into place. `ReleaseLaws.LandsOn` says so, the verification after the
  switch notices, and the run ends with `EXIT_ROLLBACK`.
* In the rollback command the error of releasing the lock replaces `EXIT_ROLLBACK`. When the rollback inside it fails,
  the exit code hides that if and only if one of the two commands that release the lock does not succeed
  (`ReleaseTheorems.MaskedIff`); `ReleaseTheorems.MaskedRollback` gives such a run for every host with another
  published release, ending with `EXIT_TRANSPORT` and `current` off the starting release.
* A failure whose code says that the provider was reached comes from inside its adapter; but an adapter that raises
  anything other than the provider's own errors is entered and recorded as not reached
  (`AnalysisExecutor.CodeTellsTheProvider`).
* A pending analysis run is taken up if and only if it has an attempt left under the limit now in force
  (`AnalysisLaws.PendingMovesIff`); after the limit is lowered it can stay pending and be retried for ever.
* The client keeps sets in plain objects, so a tag key that every object inherits (`constructor`) always counts as
  removed (`CompanionApply.INHERITED`). This costs the client that key and never makes it disagree with the server.

## Model

| member | source | states |
|---|---|---|
| ResearchDomain.CheckpointRoundTrip | src/framenest/application/research.py:93-124 | the checkpoint text of any answer decodes to that answer, with or without usage and cache-write tokens |
| ResearchDomain.FingerprintIdentifies | src/framenest/application/research.py:65-90 | two requests share the hashed text exactly when owner, kind, prompt and consent all agree |
| WireTexts.CheckpointText | src/framenest/application/research.py:93-124 | the stored text of an answer, name by name, in this order and without a space |
| WireTexts.FingerprintText | src/framenest/application/research.py:78-90 | the text that is hashed, name by name, with version 2 |
| Json.LoadsOfDumps | src/framenest/application/research.py:121-123 | compact JSON reads back as the value it was written from, every string escape included |
| Json.DumpsIsInjective | src/framenest/application/research.py:78-89 | different values have different compact JSON texts |
| ResearchStore.Ports.ClaimSubmission | src/framenest/infrastructure/persistence/research_request_repository.py:311-338 | a claim succeeds exactly on an admitted row, makes it submitting, and otherwise changes nothing |
| ResearchStore.Ports.Save | src/framenest/infrastructure/persistence/research_request_repository.py:283-309 | a save of a stored operation leaves its identity, prompt, profile and admission columns as they were and takes the mutable ones from the row; it frees the slot exactly when the row is terminal and held it; other rows, clients, holds, documents and submissions stay |
| Research.ResearchCoordinator.Admit | src/framenest/application/research.py:161-252 | admission performs its plan: replay lookup first, then blocker, selection, guard, and one store transaction with the sums of the day and the month |
| Research.ResearchCoordinator.SubmitPending | src/framenest/application/research.py:285-317 | submission performs its plan: claim, one entry into the provider, and what its answer means |
| Research.ResearchCoordinator.ApplySubmitObservation | src/framenest/application/research.py:333-391 | each kind of submission answer leads to its state, error and accounting |
| Research.ResearchCoordinator.Recover | src/framenest/application/research.py:319-331 | recovery ends a submitting row as unknown and touches no other |
| Research.ResearchCoordinator.PollOnce | src/framenest/application/research.py:395-464 | polling performs its plan: checkpoint first, no handle no call, deadline before the provider |
| Research.ResearchCoordinator.AcceptCompletion | src/framenest/application/research.py:466-507 | a completion after a recorded cancel ends cancelled; otherwise the checkpoint is saved before the result |
| Research.ResearchCoordinator.CompleteFromCheckpoint | src/framenest/application/research.py:509-553 | the record is bound before the row is saved, a failing completion keeps the checkpoint, and what is charged is the price where it is known (see SavedIsPriced) |
| Research.ResearchCoordinator.Cancel | src/framenest/application/research.py:568-638 | cancellation performs its plan: recorded once, before the provider is asked |
| Research.ResearchCoordinator.ReleaseRemotePending | src/framenest/application/research.py:640-670 | each listed row whose release answers is saved with its outcome, and no other |
| Research.ResearchCoordinator.Finish | src/framenest/application/research.py:680-737 | an ending is one save followed by one reconciliation |
| ResearchLaws.EventKeepsInvariant | src/framenest/infrastructure/persistence/research_request_repository.py:231-338 | every legal event keeps rows, slot, client index, holds and documents consistent |
| ResearchLaws.OnlyForward | src/framenest/application/research.py:466-709 | between any two points of a legal history rows, settled holds and documents only move forward |
| ResearchSteps.FinishingIsLegal | src/framenest/application/research.py:680-709 | every ending keeps the cleanup, accounting and hold rules, whatever the state it ends in |
| ResearchSteps.AcceptingIsLegal | src/framenest/application/research.py:466-553 | validating and completing an observed answer is legal from every state in flight |
| ResearchSteps.ReleasingIsLegal | src/framenest/application/research.py:640-670 | each listed row is still the stored one when its turn comes, so the loop writes back no stale row |
| ResearchSteps.CallIsLegal | src/framenest/application/research.py:161-709 | every public call, from every reachable store and for every answer, emits only legal events |
| ResearchSteps.RunIsLegal | src/framenest/application/research.py:161-709 | the same for every run of calls, each cut after any number of events |
| ResearchTheorems.SubmittedAtMostOnce | src/framenest/application/research.py:285-331 | over all calls, crashes and restarts the provider's submit is entered at most once per operation |
| ResearchTheorems.EveryReachableRow | src/framenest/application/research.py:466-553 | at every point of every run: the slot is the unfinished request's; saved means checked evidence, no cancel, and the matching document; reconciled means saved; the error belongs to the state and a timeout comes only after the deadline; a finished row with a handle is marked for cleanup |
| ResearchTheorems.OneRowPerClient | src/framenest/application/research.py:180-192 | no reachable store holds two rows for one owner and client identifier |
| ResearchTheorems.RowsOnlyMoveForward | src/framenest/application/research.py:568-709 | terminal states are never left, admitted and submitting never re-entered, a recorded cancel never becomes saved, a checkpoint and its handle never change |
| ResearchTheorems.CompletionsAgree | src/framenest/application/research.py:403-407 | every retry of a completion passes the same operation, answer and handle |
| ResearchCompletion.BindingSurvivesIff | src/framenest/application/research.py:509-553 | when a completion commits and then raises, the row keeps its record if and only if it had one before; otherwise its document stands and no row names it |
| ResearchCompletion.OrphanForever | src/framenest/application/research.py:531-535 | through every run of other calls, cut anywhere, such a request stays validating, in the slot and unbound, and nothing is admitted |
| ResearchCompletion.CancelOfOrphan | src/framenest/application/research.py:568-638 | its cancellation ends it exactly when the provider gives a definite answer, never as saved and never without leaving the document behind |
| ResearchLimits.ReplayAnswersFromTheStore | src/framenest/application/research.py:180-281 | after any run and under any settings a known client identifier gets the stored row for a repeat and a conflict for anything else, and nothing is written |
| ResearchLimits.LostSubmission | src/framenest/application/research.py:319-331 | a row found submitting becomes unknown exactly by recovery, cancel-requested exactly by its own cancel, and is never submitted again |
| ResearchLimits.StuckForever | src/framenest/application/research.py:588-590 | a running or cancel-requested row without a handle keeps its state and the slot through every run, and admission stays closed |
| ResearchLimits.CanFinishIff | src/framenest/application/research.py:395-464 | some call ends an unfinished request if and only if it is not stuck |
| ResearchLedger.CallSettles | src/framenest/application/research.py:705-737 | a whole call settles the reservation of the request it ends, and no other |
| ResearchLedger.WholeCallsLeaveNoGap | src/framenest/application/research.py:705-709 | a call that is not cut off never leaves the ledger behind the rows |
| ResearchLedger.CrashAfterEndingLeavesGap | src/framenest/application/research.py:705-708 | a crash right after the save that ends a request leaves its reservation unsettled |
| ResearchLedger.GapStays | src/framenest/application/research.py:711-737 | no later call settles that reservation |
| ResearchLedger.UnsettledBlocksForever | src/framenest/infrastructure/persistence/research_budget_repository.py:163-207 | after such a gap, or a settlement of unknown cost, no run ever admits a request again |
| ResearchStore.Ports.ConsumedMicros | src/framenest/infrastructure/persistence/research_budget_repository.py:35-49 | the loop over the holds gives the sum of what the period has consumed: reservations, and accounted costs once settled |
| ResearchBudget.OneBlocker | src/framenest/infrastructure/persistence/research_budget_repository.py:163-207 | no reachable store has two holds that block, so the reason reported is that of the one there is, in whatever order the ledger is read |
| ResearchBudget.EventKeepsBudget | src/framenest/infrastructure/persistence/research_budget_repository.py:52-125 | every legal event keeps each day and month within its limit up to one overrun, and at most one hold open |
| ResearchBudget.BudgetIsKept | src/framenest/infrastructure/persistence/research_budget_repository.py:52-207 | over all runs, crashes and prices a day or month stays within the highest limit it was admitted under, unless one settlement overran its reservation; then all but that excess is within it and nothing is admitted any more |
| ResearchBudget.MonthHoldsTheDay | src/framenest/infrastructure/persistence/research_budget_repository.py:30-32 | the month key of a day is the month it falls in |
| ResearchOutcomes.PollDecides | src/framenest/application/research.py:395-553 | the whole store after a poll, for every request and every answer: a validating request is completed, one without a handle left, an overdue one timed out, and otherwise each kind of answer leads to its one state, error code, checkpoint, accounting and hold |
| ResearchOutcomes.SubmitDecides | src/framenest/application/research.py:285-391 | the whole store after a submission: untouched unless research is enabled and a request admitted; then running with its handle, completed, refused, failed, cancelled or unknown, as the provider's one answer says |
| ResearchOutcomes.RecoverDecides | src/framenest/application/research.py:319-331 | recovery ends a request found submitting as unknown, charged at its reservation, and changes nothing else |
| ResearchOutcomes.CancelDecides | src/framenest/application/research.py:568-638 | the whole store after a cancellation: an unknown or finished request is left; one never submitted ends cancelled at once; otherwise the request to cancel is recorded first and the provider's answer decides |
| ResearchOutcomes.ReleaseDecides | src/framenest/application/research.py:640-670 | each listed row takes the outcome its remote release answers, and nothing else changes |
| ResearchOutcomes.AdmitDecides | src/framenest/application/research.py:161-281 | a request is stored, with its reservation and the slot, exactly when it is new, the ledger open, the selection and the guard let it pass, the slot is free and it fits the day and the month; otherwise nothing changes |
| ResearchOutcomes.RefusalMeans | src/framenest/application/research.py:161-281 | the receipt: a repeat gets its row, and a refusal carries the code of the first reason that applies, in the stated order |
| ResearchOutcomes.SavedIsPriced | src/framenest/application/research.py:538-553 | when a whole call makes a request saved, its row is reconciled and its hold accounted at the price if and only if the checkpointed answer says what it used and the price is known; otherwise both are unknown, at the reservation |
| Credential.ProductionDeployment.Deploy | deploy/ubuntu/production_ai_deploy.py:229-299 | the deployment invokes its scripts in order, rolls back only once the backup stands, and cleans up only after acceptance |
| Credential.ProductionDeployment.RollBack | deploy/ubuntu/production_ai_deploy.py:302-330 | the phases run in order and the first that fails ends the rollback |
| CredentialScript.DeploymentFollowsItsScript | deploy/ubuntu/production_ai_deploy.py:229-299 | a deployment is one list of single commands; it reports success only when every one under `set -e` worked, readiness and capability checks among them, and otherwise the first that ended its script decides: refused before the backup, retained recovery on 77 within it, incomplete backup on any other code, the plain error of the rollback within the installation |
| CredentialScript.RollbackFollowsItsPhases | deploy/ubuntu/production_ai_deploy.py:302-330 | restore, reload, restart, readiness and clean-up with their commands, one connection each, and the first phase that stops names the error |
| CredentialLaws.BackupRecords | deploy/ubuntu/production_ai_deploy.py:539-552 | a backup that completes began without a recovery directory and left one mark per file, a copy of each present one, and the completion mark |
| CredentialLaws.RestoreRestores | deploy/ubuntu/production_ai_deploy.py:754-766 | from any host with a complete record, a restore that runs through puts back all three files and removes the `.next` ones |
| CredentialLaws.RollbackIsSafe | deploy/ubuntu/production_ai_deploy.py:302-330 | at every instant of a rollback nothing recorded is lost, and one that completes restores, reloads, restarts and cleans up |
| CredentialTheorems.NothingIsLost | deploy/ubuntu/production_ai_deploy.py:240-293 | at every instant before acceptance each file is original, as recorded, or covered by a complete record; a plain error means full restoration of what was recorded |
| CredentialTheorems.OriginalOrRecorded | deploy/ubuntu/production_ai_deploy.py:229-330 | with truthful probes: original files or a complete record of them, at every instant |
| CredentialTheorems.PlainErrorRestoresIff | deploy/ubuntu/production_ai_deploy.py:547-549 | after a plain error a file is restored if and only if its backup probe did not miss it |
| CredentialTheorems.RetainedRecoveryIsUntouched | deploy/ubuntu/production_ai_deploy.py:544-544 | with a recovery directory already there, no run changes anything on the host at any instant |
| CredentialRuns.DeployedMeans | deploy/ubuntu/production_ai_deploy.py:555-666 | a deployment that reports success has drop-in and configuration byte for byte, loaded and served, and no recovery material; and it installed the secret if and only if the secret's one write worked, failed after all its work, or failed before any with the secret already in the `.next` file |
| CredentialWitnesses.TornCredentialIsDeployed | deploy/ubuntu/production_ai_deploy.py:229-299 | on every host without a recovery directory: cut that write short, let everything else work, and the deployment succeeds with a torn credential live |
| CredentialWitnesses.MissedFilesAreLost | deploy/ubuntu/production_ai_deploy.py:302-330 | on every host without a recovery directory: let the backup miss files and the next connection fail, and the full rollback is reported with exactly those files gone |
| ReleaseHost.PerformKeepsSound | deploy/ubuntu/framenest_release.py:605-616 | no remote command makes `current` name a staging or unpublished tree, as long as only published trees are linked |
| ReleaseHost.HolderIsHolding | deploy/ubuntu/framenest_release.py:1344-1350 | in any interleaving with exclusive lock directories the lock belongs to exactly the run between its two lock acts |
| ReleaseHost.OnlyTheHolderActs | deploy/ubuntu/framenest_release.py:1485-1533 | in any such interleaving everything but a look happens under the lock of the run that does it, or makes that lock |
| ReleaseLaws.DidKeeps | deploy/ubuntu/framenest_release.py:346-356 | one remote command, whatever becomes of it, keeps the log lawful and every published tree and adds one entry with what it met; it loses the lock only by the command that gives it up, and under the lock changes just what that command under that fate does |
| ReleaseEngine.ReleaseRun.Deploy | deploy/ubuntu/framenest_release.py:1307-1538 | deploy runs its commands in the specified order: gates, lock, publication, checkpoint, cutover, then rollback or clean-up |
| ReleaseEngine.ReleaseRun.RollBackTo | deploy/ubuntu/framenest_release.py:1656-1690 | rollback runs its commands in the specified order, with the lock given up whatever came before |
| ReleaseEngine.ReleaseRun.RollBack | deploy/ubuntu/framenest_release.py:1623-1653 | the rollback of a failed cutover reads the memory, switches, checks, restarts and verifies, and the first failure ends it |
| ReleaseLaws.SwitchLands | deploy/ubuntu/framenest_release.py:611-616 | a switch that works lands on the target, or on a leftover link's release, and touches nothing else |
| ReleaseLaws.VerifyingKeeps | deploy/ubuntu/framenest_release.py:1541-1554 | verification changes nothing and passes only with `current` on the target and the target found ready in the log |
| ReleaseEngine.ReleaseRun.WaitReady | deploy/ubuntu/framenest_release.py:1557-1614 | the polling loop is the specified one, thirty seconds from its start |
| ReleaseLaws.WaitingKeeps | deploy/ubuntu/framenest_release.py:1557-1614 | the wait ends well only on four good answers in a row in the log, times out only past the deadline, and asks at most once a second |
| ReleaseLaws.CuttingOverKeeps | deploy/ubuntu/framenest_release.py:1491-1518 | a cutover that succeeds has the target in service, restarted and found ready since; one that fails has an ordinary exit code |
| ReleaseLaws.RollingBackKeeps | deploy/ubuntu/framenest_release.py:1623-1653 | a rollback that succeeds has the remembered release in service, restarted and found ready since |
| ReleaseLaws.LawfulKeepsSound | deploy/ubuntu/framenest_release.py:605-616 | as long as the others leave `current` on published releases, so does every command of a run |
| ReleaseTheorems.DeployIsSafe | deploy/ubuntu/framenest_release.py:1307-1538 | a failure before the cutover has switched and restarted nothing; one in it ends with the starting release in service and verified ready, or with `EXIT_ROLLBACK`; past it the target is in service at the same schema when the lock was last held; and the log shows, before anything is touched, every gate passed and under the lock the schema found equal and the backup reported as succeeded |
| ReleaseScript.DeployFollowsItsScript | deploy/ubuntu/framenest_release.py:1307-1489 | a deploy runs its gates, lock, publication, schema check and backup as one list; nothing live is touched before all of it has passed, and the first command that does not pass ends the run with its code, a backup that answers anything but success with `EXIT_CHECKPOINT` |
| ReleaseScript.CutoverReads | deploy/ubuntu/framenest_release.py:1491-1518 | the log of a cutover: readiness, link, rename, restart, the two questions, the wait and the journal, in this order, and for each way to stop its code |
| ReleaseScript.RollbackReads | deploy/ubuntu/framenest_release.py:1623-1653 | the log of the rollback after a failed cutover: the memory, link, rename, readiness, restart and the same questions; whatever stops it, the code is that of a failed rollback |
| ReleaseScript.WaitEnds | deploy/ubuntu/framenest_release.py:1557-1614 | a wait ends well on four good answers in a row, fails at once on a service that has failed for good, and otherwise past its deadline, each with its code |
| ReleaseScript.SanitizedIff | deploy/ubuntu/framenest_release.py:1617-1620 | a journal is let pass exactly when none of the marks of a credential occurs in it |
| ReleaseScript.TailReads | deploy/ubuntu/framenest_release.py:1519-1538 | after a cutover that succeeded: three gates, the memory forgotten, the lock given up, the capture pointer, and the code of the first that fails |
| ReleaseScript.RollbackFollowsItsScript | deploy/ubuntu/framenest_release.py:1656-1690 | the rollback command finds its release, takes the lock and remembers where `current` points before it switches anything; until it holds the lock, the first command that does not pass ends it with `EXIT_TRANSPORT` |
| ReleaseTheorems.RollbackIsSafe | deploy/ubuntu/framenest_release.py:1656-1690 | the same for the rollback command whenever its last command gave up the lock |
| ReleaseTheorems.MaskedIff | deploy/ubuntu/framenest_release.py:1683-1685 | a failed rollback inside the rollback command is hidden by the exit code if and only if giving up the lock meets anything but success |
| ReleaseTheorems.MaskedRollback | deploy/ubuntu/framenest_release.py:1683-1685 | on every sound host with another published release a run ends with `EXIT_TRANSPORT` and `current` off the starting release |
| ReleaseShared.EachRunSeesTheHost | deploy/ubuntu/framenest_release.py:1344-1350 | with any number of runs interleaved on one host, each command finds and leaves that host as its own run's log says |
| ReleaseShared.OnlyTheHolderChanges | deploy/ubuntu/framenest_release.py:1485-1533 | nothing on the shared host ever changes but by the run that holds the lock, or takes it |
| ReleaseShared.NobodyDisturbs | deploy/ubuntu/framenest_release.py:1344-1350 | while one run holds the lock no command of another changes anything on the shared host |
| ReleaseShared.OneHolder | deploy/ubuntu/framenest_release.py:363-368 | the lock directory is there exactly while some run holds the lock, and no two hold it at once |
| ReleaseShared.ProgramEndsOnTheHost | deploy/ubuntu/framenest_release.py:1307-1690 | when a deploy or rollback among many is over, the host its guarantees speak of is the shared one |
| Html.UnescapeOfEscape | src/framenest/application/document_rendering.py:113-113 | un-escaping escaped text gives the text back |
| Html.EscapedAre | src/framenest/application/document_rendering.py:113-113 | the five characters that are escaped, their references, and that other text is left as it is |
| Html.ScanElement | src/framenest/application/document_rendering.py:82-82 | a tag, balanced content and its closing tag are balanced markup |
| Inline.RenderInline | src/framenest/application/document_rendering.py:40-64 | the loop over matches renders exactly the spans of the line, leftmost first |
| Inline.SpansConserveText | src/framenest/application/document_rendering.py:44-63 | the spans of a line spell out the line: no character is lost or duplicated |
| InlineLaws.MatchIff | src/framenest/application/document_rendering.py:17-22 | the match at a place is a code span, link, strong or emphasis if and only if those characters stand there |
| InlineLaws.SpanIsLiteral | src/framenest/application/document_rendering.py:40-64 | the HTML of each kind of span, tag by tag: `code`, `a` with its three attributes or the caption alone, `strong`, `em` |
| InlineLaws.InlineMeans | src/framenest/application/document_rendering.py:40-64 | a line is rendered as the escaped text before its first pattern, that pattern's HTML, and the rest in the same way |
| Inline.SafeUrl | src/framenest/application/document_rendering.py:30-37 | an address is accepted exactly when it, trimmed, has one of the three schemes and at most 2048 characters, and then it is the trimmed one |
| Inline.InlineScans | src/framenest/application/document_rendering.py:40-64 | rendered inline text is balanced markup wherever it stands |
| Inline.InlineSize | src/framenest/application/document_rendering.py:40-64 | a rendered line is at most eight times as long as the line |
| Markdown.Renderer.ConsumeLine | src/framenest/application/document_rendering.py:118-166 | one line moves the five buffers exactly as its kind demands |
| Markdown.RenderMarkdown | src/framenest/application/document_rendering.py:67-171 | the renderer with its buffers and recursion produces the document the block structure defines; what its lines and blocks are is said by the next three rows |
| MarkdownLines.LineMeans | src/framenest/application/document_rendering.py:13-16 | for every line, in its own characters, when it is a fence, a heading and of which level, an item of an ordered or an unordered list, a quote or blank, and with which text |
| MarkdownLines.BlocksAreLiteral | src/framenest/application/document_rendering.py:79-116 | the HTML of each block, tag by tag |
| MarkdownLines.LineIsRendered | src/framenest/application/document_rendering.py:67-171 | a document of one line is rendered to the HTML that kind of line has, tag by tag, at every depth |
| MarkdownLaws.RenderedIsWellFormed | src/framenest/application/document_rendering.py:67-171 | for every text the output is well-nested HTML over the fixed tags, every link to a safe scheme, block quotes at most 33 deep, and no angle bracket or quote outside a tag |
| MarkdownVisible.ReaderSeesTheText | src/framenest/application/document_rendering.py:67-171 | strip the tags of any rendered document and read its character references: what is left is exactly the text of its spans and code, block by block |
| MarkdownLaws.RecordIsWellFormed | src/framenest/application/document_rendering.py:174-189 | the same for the whole question-and-answer document |
| MarkdownLaws.LinesAreConserved | src/framenest/application/document_rendering.py:118-170 | every line lands in exactly the blocks of its kind, in order, through all five buffers |
| MarkdownLaws.BlockOrderIsNotInputOrder | src/framenest/application/document_rendering.py:165-170 | a paragraph line after a list item is rendered before the list |
| MarkdownOrder.BlocksAreMadeOfTheirLines | src/framenest/application/document_rendering.py:118-170 | each block is what the lines with its numbers say, in that order, a code block the lines right after its fence |
| MarkdownOrder.EachLineOnce | src/framenest/application/document_rendering.py:118-170 | every line but blank ones and closing fences is in exactly one block, exactly once |
| MarkdownOrder.OrderIsKeptIff | src/framenest/application/document_rendering.py:118-170 | the blocks keep the order of the lines if and only if, outside fences, no prose line directly follows a list item |
| MarkdownLaws.CodeBlocksAreFences | src/framenest/application/document_rendering.py:119-134 | the code blocks are the fenced stretches of the text, in order |
| MarkdownLaws.CodeBodyIsSource | src/framenest/application/document_rendering.py:104-116 | un-escaping a rendered code block gives the text between its fences |
| MarkdownLaws.CodeLinesComeBack | src/framenest/application/document_rendering.py:104-116 | splitting that text gives back exactly its lines, if and only if there is at least one |
| MarkdownLaws.DocumentSize | src/framenest/application/document_rendering.py:67-171 | the output is at most thirteen times as long as the input and one character more |
| AnalysisRuns.AnalysisService.ReconcileInterrupted | src/framenest/application/media_analysis_lifecycle.py:379-396 | an interrupted claim is failed unless its version has moved on, and then the latest run is looked up |
| AnalysisRuns.AnalysisService.Execute | src/framenest/application/media_analysis_lifecycle.py:398-444 | execution performs its plan on a run as listed, however stale; what comes of it is said by ExecutionDecides |
| AnalysisRuns.AnalysisService.Conclude | src/framenest/application/media_analysis_lifecycle.py:418-484 | success is recorded, a retryable failure with attempts left requeued, any other failed, an interrupted one left |
| AnalysisOutcomes.FailureHasItsCode | src/framenest/application/media_analysis_lifecycle.py:588-637 | each exception class has its literal code, and whether the provider was reached |
| AnalysisOutcomes.ExecutionDecides | src/framenest/application/media_analysis_lifecycle.py:398-484 | after a whole execution of a pending run it is pending again if and only if the executor raised a rate limit, an unavailable provider or a pending time-out with an attempt left; otherwise it is analyzed with the suggestion or failed with the code of what was raised |
| AnalysisOutcomes.NothingIsEntered | src/framenest/application/media_analysis_lifecycle.py:398-417 | a finished run is given back as it is, a run that has changed or has no attempt left is a conflict and nothing is written, and an interrupted one is failed with an unknown outcome |
| AnalysisOutcomes.ImportDecides | src/framenest/application/media_analysis_lifecycle.py:310-352 | an import gives a pending run with an attempt left the suggestion at hand, and changes nothing otherwise |
| AnalysisOutcomes.FirstObstacleDecides | src/framenest/application/media_analysis_lifecycle.py:504-564 | what the executor raises is the first obstacle in its order; without one the provider's adapter is entered and decides |
| AnalysisLaws.TurnKeepsLife | src/framenest/infrastructure/persistence/media_analysis_run_repository.py:158-497 | every versioned transaction keeps a run in order, never revives a finished one, and lowers the measure when it changes it |
| AnalysisExecutor.CodeTellsTheProvider | src/framenest/application/media_analysis_lifecycle.py:505-637 | the recorded code says that the provider was reached if and only if its adapter was entered and raised one of its own errors; what is retried has entered it |
| AnalysisLaws.AttemptsAreBounded | src/framenest/application/media_analysis_lifecycle.py:398-484 | over all failures, requeues, interruptions, imports and restarts the executor is entered at most the maximum of times; analyzed means the suggestion of the last claim, failed the code and flag of a failure of an entered executor or an unknown outcome |
| AnalysisLaws.FinishedStays | src/framenest/application/media_analysis_lifecycle.py:398-407 | between any two points of time a finished run is unchanged and any other has lost measure or is unchanged |
| AnalysisConcurrent.InterleavedAttemptsAreBounded | src/framenest/application/media_analysis_lifecycle.py:398-484 | however the transactions of any executions and imports interleave: the executor is entered at most once for each claim and at most the maximum of times for a run, and an analyzed run has the one answer given under its last claim |
| AnalysisConcurrent.LateIsFenced | src/framenest/infrastructure/persistence/media_analysis_run_repository.py:158-497 | an execution that comes back with an answer or a failure writes it if and only if the run is still as it claimed it |
| AnalysisConcurrent.AloneIsExecution | src/framenest/application/media_analysis_lifecycle.py:398-484 | an execution nobody interrupts is the sequential one: the same store, the same reply |
| AnalysisLaws.InterruptedIsFailed | src/framenest/infrastructure/persistence/media_analysis_run_repository.py:447-497 | an interrupted run is failed with an unknown outcome when it comes up again, without a new executor call |
| AnalysisLaws.PendingMovesIff | src/framenest/infrastructure/persistence/media_analysis_run_repository.py:158-203 | a pending run is taken up if and only if an attempt is left under the present limit |
| AnalysisDrain.AnalysisConsumer.DrainOnce | src/framenest/application/media_analysis_coordinator.py:277-300 | a pass is a log of calls on the beats it used up, ended by a listing that fails or shows nothing unless it was stopped, idle exactly when nothing raised, and achieving the three properties below |
| AnalysisDrain.ListingShows | src/framenest/application/media_analysis_coordinator.py:302-333 | a listing starts after the last run executed and shows the first runs past it, up to a full page; nothing while the table is missing; and it fails exactly when the store does |
| AnalysisDrain.StopsAndFailures | src/framenest/application/media_analysis_coordinator.py:277-300 | a pass was asked to stop, or has to be repeated, exactly when some call came back so |
| AnalysisDrain.NothingTwice | src/framenest/application/media_analysis_coordinator.py:277-300 | a pass executes upwards and no run twice, and none but those that were there or came |
| AnalysisDrain.EverythingIsDone | src/framenest/application/media_analysis_coordinator.py:277-300 | a pass that saw the end executed every run unfinished at its start that nobody else finished meanwhile |
| AnalysisDrain.FewCalls | src/framenest/application/media_analysis_coordinator.py:277-300 | it takes at most one listing for each execution, and a last one |
| AnalysisDrain.AnalysisConsumer.ProcessRun | src/framenest/application/media_analysis_coordinator.py:335-362 | one execution on the next beat, whatever it raises means retry, and the active set is as before |
| AnalysisDrain.BackoffStep | src/framenest/application/media_analysis_coordinator.py:380-386 | doubling and capping step by step is capping the doubled initial delay |
| AnalysisDrain.RetryDelay.Increase | src/framenest/application/media_analysis_coordinator.py:380-386 | the delay is the capped doubling of the initial one, once per failed pass |
| CompanionTags.IsOrderedSubsequence | src/framenest/application/companion_review.py:568-581 | the greedy check succeeds if and only if some order-preserving embedding exists |
| CompanionTags.MapSuggestedTags | src/framenest/application/companion_review.py:202-286 | each value gets the tag at the only place whose display name fits or, none fitting so, at the only one whose key does; it is ambiguous, unknown, duplicate, past the limit or mapped exactly under the stated conditions on those places and on the tags found before it |
| CompanionTags.EligibleAreTheFirstFive | src/framenest/application/companion_review.py:557-565 | the eligible keys are the first five different keys named, in order, without repeats |
| CompanionApply.SanitizeTagKeys | extension/shared/messages.js:487-501 | the sendable keys, each once, in order, at most five |
| CompanionApply.SanitizeApplyBody | extension/shared/messages.js:503-524 | a body is built from the identifier, the allowed fields and, with tags among them, the sanitized keys |
| CompanionApply.BuiltIsAccepted | extension/ui/review.js:259-286 | whatever is checked and removed, a body that is built passes the server's check and its keys embed in the eligible ones |
| CompanionApply.BuiltIff | extension/ui/review.js:259-286 | a body is built exactly when something is checked and, with tags checked, a remaining key can be sent |
| CompanionApply.RemainingAreEligible | extension/ui/review.js:15-28 | the keys left after removing chips are a subsequence of the eligible ones: those not removed |
| CompanionApply.ReviewController.RemoveChip | extension/ui/review.js:246-257 | removing a chip removes that key and unchecks tags when none is left |
| CompanionApply.ReviewController.SelectRun | extension/ui/review.js:218-232 | another run replaces the suggestion and clears what was checked and removed; the same run, or no identifier, changes nothing |
| CompanionApply.ReviewController.SetField | extension/ui/review.js:234-244 | tags can be checked only while a mapped key remains |
| CompanionApply.ReviewController.Save | extension/ui/review.js:259-286 | what the controller sends is accepted by the server, names exactly the fields that are checked, and holds the first five of the eligible keys that can be sent and were not removed, each once and in order |
| Base64.DecodeOfEncode | extension/background/service_worker.js:999-1007 | base64 text of any bytes is read back as those bytes |
| Base64.PaddingComesBack | src/framenest/application/companion_review.py:376-376 | padding that was stripped is restored from the length alone |
| Base64.EncodedByGroups | src/framenest/application/companion_review.py:308-312 | the text of bytes as RFC 4648 defines it: four letters of the alphabet for every three octets, six bits each from the high end, and `=` where the last group has no octet |
| Cursor.HistoryComesBack | src/framenest/application/companion_review.py:301-312 | a history cursor decodes to its timestamp and identifier, and as an inbox cursor to an analyzed position |
| Cursor.InboxComesBack | src/framenest/application/companion_review.py:315-353 | an inbox cursor decodes to its timestamp, flag and identifier, and is refused as a history cursor |
| WireTexts.HistoryCursorText | src/framenest/application/companion_review.py:301-312 | the text inside a history cursor, name by name |
| WireTexts.InboxCursorText | src/framenest/application/companion_review.py:315-328 | the text inside an inbox cursor, name by name, with version 2 |
| WireTexts.HistoryIff | src/framenest/application/companion_review.py:356-366 | a history cursor is accepted if and only if its payload has the two names and no other, a timestamp and an identifier |
| WireTexts.InboxIff | src/framenest/application/companion_review.py:331-353 | an inbox cursor is accepted if and only if its payload has the four names and no other, version 2, a timestamp, a flag and an identifier, or is that of a history cursor |
| Base64.AtobIff | extension/shared/messages.js:329-336 | a text is read exactly when, white space and up to two padding signs that complete a group aside, it is all letters and no letter stands alone in the last group |
| Base64.AtobOfEncode | extension/shared/messages.js:329-336 | the text of any bytes is read as those bytes, with any white space put in and with its padding or without |
| Attach.BytesFromBase64 | extension/shared/messages.js:329-336 | the chunk of any bytes comes back as those bytes, white space and missing padding allowed, and a chunk is refused exactly when the browser cannot read it |
| Attach.ConcatChunks | extension/shared/messages.js:582-590 | the chunks one after another, each at its offset |
| Attach.AttachReceiver.OnMessage | extension/content/x_adapter.js:2091-2126 | what each message does to name, type and chunks; the receiver never holds or attaches more than the limit, for any messages, and what it attaches are all the bytes under the last name and type |
| Attach.SendSlices | extension/background/service_worker.js:995-1008 | one piece of the stream arrives as its bytes, whatever slices it was sent in |
| Attach.TransferAttach | extension/background/service_worker.js:956-1015 | however the stream is cut into pieces, the page attaches exactly its bytes under the given name and type, or their defaults, or nothing, and each outcome is decided exactly |
| Inbox.MergePage | extension/background/service_worker.js:726-738 | merging a page keeps the rows and their index those of all rows so far |
| Inbox.ReviewInbox | extension/background/service_worker.js:703-748 | the merged list is the specified one for the pages fetched; listed, failed and cycle are each decided exactly by the last response, and followed cursors are all different |
| Inbox.MergeIsUnique | extension/background/service_worker.js:728-738 | the specification fixes the list: one row per medium in order of first appearance, the first analyzed one if any |
| Inbox.MergeMeans | extension/background/service_worker.js:728-738 | by places: the media come in the order of their first rows, each once, with the first analyzed row, or the first row when none is analyzed |
| Inbox.SanitizedAre | extension/shared/messages.js:416-468 | of a page the well-formed items are kept, each of them and in order |

## Left out

- Research.ResearchCoordinator.CompleteFromCheckpoint: a receipt in another state than saved, because none can be built (src/framenest/domain/research.py:755-757).
- ResearchDomain.FingerprintIdentifies: SHA-256 is taken to be injective, so the fingerprint is the text that is hashed.
- ResearchDomain.CheckpointRoundTrip: byte-length limits of answers and the coercions of foreign payloads are left out, and the JSON reader accepts the compact spelling only.
- Research.ResearchCoordinator.ReleaseRemotePending: the order and limit of the listing are a condition on its argument (distinct stored rows still to be cleaned up).
- Research timestamps: each call reads the clock once.
- ResearchOutcomes.SavedIsPriced: the price of an answer is a parameter; its calculation from usage and price schedule (src/framenest/application/research.py:814-868) is left out.
- Research transactions that commit and then raise: the error reaches the caller, which is a call cut right after that event. The completion's, which is caught, is in `ResearchCompletion` and not among the calls of a run.
- Research calls do not overlap, because `save` writes a whole row from a local copy.
- ReleaseEngine.ReleaseRun.Deploy: the checks before the lock and the steps on the staging tree are sequences of commands known only by their exit codes; a command whose output is wrong counts as one that failed.
- Release capture transitions (`activate-capture`, `rollback-capture`) and the draining of capture work.
- Credential scripts and release commands whose connection drops while they go on running on the host: their effect is there when their caller sees them fail, and none of it lands later.
- Markdown.RenderMarkdown: the list of blocks is kept as the string it is joined into.
- MarkdownLaws.CodeLinesComeBack: an empty code block and one empty line between fences render alike, so the lines come back only when there is one.
- AnalysisDrain.AnalysisConsumer.DrainOnce: waiting, waking and the thread pool are left out; an idle pass does not mean that nothing is pending, since a processed run may be requeued.
- AnalysisRuns.AnalysisService.Execute: which run of a medium is the latest is a parameter.
- CompanionTags.MapSuggestedTags: case folding and trimming are parameters.
- Inbox.ReviewInbox: the unopened count, the badge and the awaiting records are left out.
- Attach.AttachReceiver.OnMessage: the composer is there or not for the whole transfer.
- Attach.TransferAttach: the download that replaces a failed transfer is left out.
- WireTexts.InboxIff: payloads are read as compact JSON, so a version written as a fraction that equals 2 is refused.
- SSH, subprocess, fetch, browser APIs, the DOM and SQL: only success or failure of each step and its effect on the modelled state are kept.
- Provider adapters, configuration, server assembly, catalogue and record listings, and the wording of messages and logs.
