# Deployment tooling: a verified model

The repository under verification is fail-closed deployment tooling for one customer
destination. Its hard part is a set of protocols over a durable store whose writes can
commit although the reply is lost, around effects that must not happen twice, and a set
of parsers, printers and rewriters whose output other systems trust. This project models
those parts in Dafny and proves what the code promises about them.

How it is arranged, from the innermost module outwards:

- `Outcomes`, `Digests`, `Ordering`, `Splitting`, `Numerals`: options and results,
  injective digests, times in microseconds, digests as text, code-point order and sorting,
  splitting text, decimal text.
- `LedgerEngine`: the execution ledger of a saved Terraform plan. `Perform` is one
  transition, reapproval or stale-lease recovery, and a `History` is any chain of them.
- `ConfirmedWrites`: the store as a class with a durable ledger, a ghost history of all
  commits and a script that says, call by call, what others commit first and whether the
  request and its reply get through. On it run the confirmed replacement and the
  confirmed creation.
- `ApplyProtocol`: any number of apply controllers and bookkeeping steps as a state
  machine, interleaved call by call, with requests that arrive long after their call.
  `ApplyOutcome`: the imperative tail of the controller once its attempt is consumed.
  `ApplyIntent`: the intent that is built before and validated after. `HealthGate`: health
  and reconciliation receipts and the downstream gate.
- `FounderPep`, `FounderRuns`, `FounderController`: the founder exception, its time
  windows, its state machine over all interleavings, and its two runs as executed.
- `TarPreflight`, `ZipDirectory`, `ArchivePath`, `ArchiveInventory`: the archive checks,
  each walk proved against a grammar of what it accepts.
- `FileSystems`: a file system as a class with entries, descriptors and a script of faults
  and of what others remove and create between calls, with a ghost book of the names this
  program made, its links and its unlinks. `AtomicPublication`: the two-file publication
  on it.
- `PlanSummary`, `StoredSummaries`: the sanitized plan summary, its validation, and what the
  validation of a stored summary says about the plan behind it.
- `DeploymentRegistry`, `AttributeCodec`, `RegistryItems`, `RegistryPublication`: registry
  records and their histories, the typed attributes of the table, records as items of the
  table, and one publication.
- `PdfText`, `PdfWriter`, `PdfReader`: the PDF writer against a reader of literal strings
  and content streams, and against a reader of whole documents.
- `MappingRewrite`, `TemplateNodes`: the CloudFormation mapping rewrite on values and, in
  place, on lists and dictionaries that may be shared, against an evaluation of templates.
- `MountedRoutes`, `ScopePolicy`: the flattening of routers and the emitted scopes.

Modelling choices: a digest is a constructor around its content, so it is injective;
times are integers in microseconds and `ToSecond` floors them as the code's `_timestamp`
does; schema checks are record types and small predicates; an exception is a `Result`,
an `Option` or a verdict; a clock, a random name and every answer of the network or the
operating system is a parameter or comes from a script that is universally quantified.
A failing system call has no effect, except that a failing write may leave a part of its
data behind. A request whose call has ended without it may still arrive: the state machines
keep such requests and deliver them at any later step, and in the classes they are among
what others commit.

What the proofs found about the code:

- At-most-once of the Terraform apply rests on a fact outside the ledger. Confirmation
  compares ledgers for equality, so two processes with one approval but two private
  roots both believe they won, and both apply. The apply is started at most once over
  every interleaving if and only if equal approvals imply one root
  (`ApplyProtocol.AtMostOnceIffSeparated`; the sharing run is constructed by
  `SharedApprovalAppliesTwice`).
- The intent round trip fails for times with a fraction of a second. The intent is rebuilt
  at the time of authorization floored to a second, so an approval observed later within
  that same second is refused when the intent is validated, after the attempt is consumed.
  The exact condition is in `ApplyIntent.RoundTrip`, the concrete input in
  `ApplyIntent.FractionalTimeIsRefused`. The schemas allow such times; the builders of the
  records write whole seconds, and then the round trip holds.
- A plan classified NO_CHANGE over present state cannot recover: reconciling needs a
  serial that advanced, health needs the serial of the plan
  (`HealthGate.NoChangeNeverRecovers`). Every plan can become UNCERTAIN
  (`AnyPlanCanBeUncertain`), and one can go on to HEALTHY exactly if its state was absent
  or it is classified CHANGE (`HealthGate.RecoversIff`, with the run built in
  `RecoveringRun`).
- A text with a carriage return does not survive its PDF page
  (`PdfText.PageTextSurvives`, `PdfReader.TextsReadBack`).
- A publication whose final unlink of a temporary fails still reports success and leaves
  the temporary behind. Success leaves the two outputs and nothing else exactly if no
  unlink failed (`AtomicPublication.WriteOutputs`); `LeavesTemporaryBehind` builds a
  directory in which it happens.
- The publication goes by name. It removes an entry of others if and only if one of its
  working unlinks meets a replacement, an entry that others put under a name after taking
  the one this program had made there (`FileSystems.FileSystem.SafeUnlink` for one call,
  `AtomicPublication.WriteOutputs` for whole runs, with the names that are unlinked). In
  the same way it publishes what others wrote if they had replaced a temporary before it
  was linked. Others that only replace temporaries cannot make it fail, so it can report
  success with both outputs holding what they wrote and with entries of theirs removed:
  `PublishesReplacements` builds that run for any payloads.
- The validation of a stored plan summary checks its counts and its manifests, but never
  one against the other. A valid summary is, apart from changes that do nothing, the
  summary of some plan if and only if its counts are those of its entries
  (`StoredSummaries.ValidIsFaithfulIff`). `DestructionIsOverlooked` is an accepted summary
  that counts one creation and lists one deletion.
- The validator of stored founder ledgers does not look at the review fields of a Plan that
  was given up as FAILED or UNCERTAIN, so it accepts ledgers that no run writes
  (`FounderPep.LostPlanMayClaimReview`). Otherwise it accepts exactly the ledgers of the
  stages of an exception (`FounderPep.ValidLedgersAreStages`).
- A template in which one lookup to be bound stands in two places, by way of a YAML alias,
  is refused although its value can be rewritten: the second visit finds it bound. The
  binding succeeds exactly if the value can be rewritten and no such lookup is reached
  twice (`TemplateNodes.Template.BindDeploymentMappings`, `SharedLookupIsRefused`).

## Model

| member | source | states |
|---|---|---|
| LedgerEngine.RunInvariant | tooling/nonprod_live_engine.py:1199-1343 | in every chain of steps the version counts the steps, the attempt counter is 0 exactly before APPLYING, publication evidence exists exactly for HEALTHY, and at most five steps are not reapprovals |
| LedgerEngine.StepKeeps | tooling/nonprod_live_engine.py:113-126 | a step follows the transition table, never changes identity, plan or authority, and freezes the approval once the attempt is consumed; a reapproval always changes the approval |
| LedgerEngine.ConsumedForever | tooling/nonprod_live_engine.py:1281-1290 | a consumed attempt stays consumed under one approval, and no ledger after it is PLANNED, APPROVED or APPLYING again |
| LedgerEngine.OneAttempt | tooling/nonprod_live_engine.py:1199-1314 | a history holds one APPLYING ledger at most and no ledger value twice |
| LedgerEngine.AppliedIsKept | tooling/nonprod_live_engine.py:113-126 | after APPLIED only HEALTHY and FAILED_HEALTH can ever follow |
| LedgerEngine.OutcomesExclude | tooling/nonprod_live_controller.py:2323-2331 | in one history APPLIED excludes UNCERTAIN, RECONCILED_APPLIED and FAILED, before and after |
| LedgerEngine.TransitionIsExact | tooling/nonprod_live_engine.py:1199-1314 | which transitions succeed: along the lifecycle, with the approval, receipt or publication that the target asks for, and an attempt only once |
| LedgerEngine.ReapprovalIsExact | tooling/nonprod_live_engine.py:1144-1198 | an approval is replaced exactly while the attempt is unused, by a different one that fits the ledger, and only the version and the time change with it |
| LedgerEngine.RecoveryIsExact | tooling/nonprod_live_engine.py:1317-1343 | a lease is recovered exactly if it is the one running attempt and at least 65 minutes old, and the ledger becomes UNCERTAIN with the code of a lost runner and nothing else changed |
| LedgerEngine.ApprovalWasGiven | tooling/nonprod_live_engine.py:1121-1141 | every ledger of a history that carries an approval got it at a time when it was current, for this plan, from the reviewer of the plan, who did not initiate the run |
| ConfirmedWrites.LedgerTable.Replace | tooling/nonprod_live_store.py:933-981 | the conditional put commits exactly when it arrives and the whole ledger is still the expected one, and a lost reply looks the same as a refusal |
| ConfirmedWrites.AppearanceIsReplacement | tooling/nonprod_live_controller.py:1478-1527 | a ledger that appears in the history although it follows the expected one was committed directly over it, at one place only |
| ConfirmedWrites.ReplaceLedgerConfirmed | tooling/nonprod_live_controller.py:1478-1527 | if it returns, the proposal was committed exactly once, directly over the expected ledger, whatever others did and was lost; without interference it returns exactly when one of its writes committed and a later read answered, and otherwise leaves the ledger as its own writes did; at most six calls; it never reports a mismatch on this store |
| ConfirmedWrites.RoundTrip | tooling/nonprod_live_controller.py:1485-1526 | one write and its readback move the retry automaton as the loop does |
| ConfirmedWrites.NeverAgain | tooling/nonprod_live_controller.py:1513 | a ledger that was replaced never comes back, so that reading it back means that nothing was written over it |
| ConfirmedWrites.CreateOnceConfirmed | tooling/nonprod_live_controller.py:1367-1398 | for every script of rivals, lost requests and lost replies: the record is that of whoever's request came first; the proposal is returned exactly if a read is answered and finds it, a conflict is raised exactly if a read is answered and finds another record, and otherwise the error tells whether a write was told to have committed |
| ApplyProtocol.RunInv | tooling/nonprod_live_controller.py:1952-2377 | the protocol invariant: each process holds durable proof for where it stands, roots with an intent are apart, the log of applies and the reported successes are sound, over every interleaving |
| ApplyProtocol.AtMostOneApply | tooling/nonprod_live_controller.py:2191-2293 | over any number of controllers, lost requests and replies, requests that arrive late, failing reads and stale-lease recovery, the apply is started at most once if equal approvals imply one private root |
| ApplyProtocol.AtMostOnceIffSeparated | tooling/nonprod_live_engine.py:985-1000 | for approvals the ledger accepts, at-most-once over every interleaving holds if and only if equal approvals imply one private root |
| ApplyProtocol.SharedApprovalAppliesTwice | tooling/nonprod_live_controller.py:1513-1514 | constructs the run in which two processes with one approval and two roots both start the apply |
| ApplyProtocol.BothConsume | tooling/nonprod_live_controller.py:2264-2268 | the write of the second process is refused, yet its readback equals its own proposal and it proceeds |
| ApplyProtocol.CommittedOutcomeIsSound | tooling/nonprod_live_controller.py:2290-2377 | over every interleaving, APPLIED is committed only if in some step a process at its consumed attempt ran Terraform and was told that it succeeded, and then UNCERTAIN never is |
| ApplyProtocol.EffectsHaveIntents | tooling/nonprod_live_controller.py:2251-2293 | the processes listed as having started the apply are exactly those with such a Terraform step, and each wrote the first intent of its root before, under an approval current then, with an APPLYING ledger under that approval durable |
| ApplyProtocol.AttemptHasIntent | tooling/nonprod_live_controller.py:2263-2268 | the APPLYING ledger of any interleaving carries the approval and the time of an intent that some process wrote while that approval was current |
| ApplyProtocol.OutcomeIsReached | tooling/nonprod_live_controller.py:2191-2357 | one process alone can take every plan with a usable approval to the outcome that Terraform reports, with the code for it |
| ApplyProtocol.Resumes | tooling/nonprod_live_controller.py:1685-1949 | a process that finds the attempt settled commits the health or reconciliation step that its evidence supports |
| ApplyProtocol.LostRequest | tooling/nonprod_live_controller.py:1478-1500 | a request that gets lost commits nothing now and may commit later, exactly over the ledger it was made for |
| ApplyProtocol.ChoiceDecides | tooling/nonprod_live_controller.py:2191-2226 | which approvals are selected: the first over a PLANNED ledger, a different one that fits in place of one that is still unused, and none if its own is selected already |
| ApplyProtocol.LostReply | tooling/nonprod_live_controller.py:1486-1490 | a write whose reply is lost commits exactly over the expected ledger, and the process is no wiser than after a lost request |
| ApplyOutcome.ReadAfterError | tooling/nonprod_live_controller.py:1530-1547 | up to three reads; the first that is answered gives the durable ledger of that moment, and nothing is read exactly if none of the three is |
| ApplyOutcome.AfterError | tooling/nonprod_live_controller.py:2312-2377 | a success of this process that is durable is returned, a loss that cannot be read is persisted, and nothing is written over an outcome of others |
| ApplyOutcome.PersistLoss | tooling/nonprod_live_controller.py:2334-2357 | the attempt is given up as UNCERTAIN only over itself, and a success that turns out to be durable is returned instead |
| ApplyOutcome.FinishAttempt | tooling/nonprod_live_controller.py:2265-2377 | a normal return means that Terraform returned and APPLIED with the code of a success was committed over this attempt; the reconciliation error means UNCERTAIN with the code of a lost response was; this process commits nothing else, and a success only if Terraform returned; with everybody quiet and nothing lost it returns exactly if Terraform did |
| ApplyIntent.RoundTrip | tooling/nonprod_live_orchestrator.py:712-895 | a built intent is accepted later, before plan and approval expire, exactly with its own APPLYING ledger and exactly if plan and approval are no younger than the authorization time floored to a second |
| ApplyIntent.RoundTripOnWholeSeconds | tooling/nonprod_live_engine.py:180-183 | with times of whole seconds the round trip holds at every later time, and every other APPLYING ledger is refused |
| ApplyIntent.AcceptedIntentIsExact | tooling/nonprod_live_orchestrator.py:793-895 | an accepted intent binds one APPLYING ledger, one version above the approved one, under the validated approval, with the role, source and command of its context, the bindings and readbacks of its plan and paths that never lead up |
| ApplyIntent.IntentFixesEverything | tooling/nonprod_live_orchestrator.py:793-895 | whoever accepts one intent twice has the same context, plan, approval and ledgers both times and read the same plan and state |
| ApplyIntent.AuthorizedLedgerIsUnused | tooling/nonprod_live_engine.py:1044-1118 | the decision is positive exactly for the first ledger of the plan with nothing but the approval selected, an approval the ledger itself would take now, and the recorded readbacks |
| ApplyIntent.ApprovalAuthorizesOneRun | tooling/nonprod_live_orchestrator.py:712-790 | one approval authorizes one run of one plan, and never the approval of the initiator |
| ApplyIntent.PlanPathIsASavedPlan | tooling/nonprod_live_orchestrator.py:726-731 | the plan path names a file with the suffix of saved plans and never leads up |
| ApplyIntent.LateApprovalIsRefused | tooling/nonprod_live_orchestrator.py:793-895 | an approval observed after the floored authorization time builds an intent that no later validation accepts |
| ApplyIntent.FractionalTimeIsRefused | tooling/nonprod_live_orchestrator.py:706-710 | a concrete intent that no later validation accepts |
| HealthGate.HealthyStepOpensTheGate | tooling/nonprod_live_engine.py:1643-1682 | the receipt that took a ledger to HEALTHY passes the downstream gate, and no other receipt does |
| HealthGate.EveryHealthyIsAccepted | tooling/nonprod_live_engine.py:1231-1296 | every HEALTHY ledger of a plan's history is accepted downstream with exactly one receipt, which passed and was taken from the ledger before |
| HealthGate.BuiltHealthIsSufficient | tooling/nonprod_live_engine.py:1446-1546 | a built receipt leads to HEALTHY exactly if all its checks passed, and then through the gate |
| HealthGate.FingerprintsAreExact | tooling/nonprod_live_engine.py:1347-1399 | which state reads count as a fingerprint: lineage, serial, stored version, digest and size |
| HealthGate.ReconciliationIsExact | tooling/nonprod_live_engine.py:1549-1640 | which reconciliation receipts are built, and that one decides for RECONCILED_APPLIED exactly if the state was absent or advanced in the same lineage, the speculation saw no change and the contract was verified |
| HealthGate.HealthIsExact | tooling/nonprod_live_engine.py:1446-1546 | which health receipts are built, and that one passes exactly if all its checks did |
| HealthGate.GateIsExact | tooling/nonprod_live_engine.py:1643-1682 | the gate accepts exactly the HEALTHY ledger of this plan and layer with its passed receipt, taken from the version before, and publication evidence |
| HealthGate.ReconciledNeedsProof | tooling/nonprod_live_engine.py:1600-1611 | a history with built evidence reaches RECONCILED_APPLIED only with a receipt made from a speculation without changes, a verified contract and an advanced state |
| HealthGate.StateTestsCompared | tooling/nonprod_live_engine.py:1600-1611 | over present state, the reconciliation test and the health test agree for CHANGE plans and exclude each other for NO_CHANGE plans |
| HealthGate.NoChangeNeverRecovers | tooling/nonprod_live_engine.py:1486-1493 | with serials that do not decrease, a NO_CHANGE plan over present state never goes from UNCERTAIN to HEALTHY |
| HealthGate.AnyPlanCanBeUncertain | tooling/nonprod_live_engine.py:1199-1314 | every plan has a run in which its apply starts and becomes UNCERTAIN |
| HealthGate.RecoveringRun | tooling/nonprod_live_engine.py:1446-1640 | builds the run from PLANNED over UNCERTAIN to HEALTHY, with receipts from the builders, for every plan over absent state and every CHANGE plan over a state with a well-formed lineage |
| HealthGate.RecoversIff | tooling/nonprod_live_engine.py:1486-1611 | a run with built receipts and serials that do not decrease goes from UNCERTAIN to HEALTHY exactly for plans over absent state and CHANGE plans (whose present state has a well-formed lineage, as every stored one has) |
| FounderPep.FirstLedgerIsExact | tooling/founder_bootstrap_pep.py:430-458 | the first ledger is built exactly for a valid intent, at the latest when the Plan window opens, and says that nothing has happened |
| FounderPep.StepsAreComplete | tooling/founder_bootstrap_pep.py:696-704 | each claim or finalize step succeeds exactly for a valid intent and a valid ledger of it, under its own guards and a clock that does not run back, and its result meets the state and version table |
| FounderPep.RunKeeps | tooling/founder_bootstrap_pep.py:461-539 | every ledger of every run is valid and inside its windows, its version is its position, times never decrease, and a run has at most six ledgers |
| FounderPep.ClaimsOnce | tooling/founder_bootstrap_pep.py:796-892 | each claim occurs once at most, at a fixed position, and no ledger value twice |
| FounderPep.Timeline | tooling/founder_bootstrap_pep.py:402-420 | the Plan claim is at least twelve hours after revocation, the review more than five minutes before Apply starts, the denial lasts more than twelve hours beyond that start |
| FounderPep.ApplyFollowsReview | tooling/founder_bootstrap_pep.py:822-879 | an Apply claim has a Plan claim and a review before it, and keeps the reviewed change set, both digests of the review and its start |
| FounderPep.LedgerTellsTheRun | tooling/founder_bootstrap_pep.py:796-892 | the ledger of any run tells who claimed what and when: its review data are those given to the review, its start is the Apply claim, its revocation names the execution |
| FounderPep.TwoPrincipals | tooling/founder_bootstrap_pep.py:402-420 | nobody claims both Plan and Apply, both act within windows of bounded length, and no ledger belongs to two intents |
| FounderPep.ValidLedgersAreStages | tooling/founder_bootstrap_pep.py:461-539 | the validator of stored ledgers accepts exactly the ledgers of the stages of an exception, with anything in the review fields of a lost Plan |
| FounderPep.LostPlanMayClaimReview | tooling/founder_bootstrap_pep.py:508-519 | a ledger the validator accepts and no run writes: a lost Plan with a change set |
| FounderPep.EveryIntentCanBeUsed | tooling/founder_bootstrap_pep.py:402-455 | every valid intent can be carried through to its revocation within its windows |
| FounderRuns.EffectsAtMostOnce | tooling/founder_bootstrap_pep.py:895-983 | over all interleavings, all lost requests and replies and all requests that arrive late, the Plan effect and the Apply effect each start at most once |
| FounderRuns.NormalReturnIsDurable | tooling/founder_bootstrap_pep.py:761-793 | a run that returned has its final ledger in the history, in the right state, and is the only one that started its effect |
| FounderRuns.ClaimIsFinal | tooling/founder_bootstrap_pep.py:728-758 | after a claim the ledger is the claim or what the claiming run concluded over it, and is never claimable again |
| FounderRuns.ConclusionIsTold | tooling/founder_bootstrap_pep.py:895-983 | over all interleavings, every durable review holds what the effect of its own run came back with, both digests in their places, and every durable success was reported by the effect of its run |
| FounderRuns.EffectsAreSteps | tooling/founder_bootstrap_pep.py:907-960 | the runs listed as having started their effect are exactly those with such a step |
| FounderRuns.ReadsDecide | tooling/founder_bootstrap_pep.py:771-786 | a run claims only the durable ledger that waits for it, returns after a readback only if its conclusion is durable, and gives up only a claim that still stands |
| FounderRuns.DeliveredRequest | tooling/founder_bootstrap_pep.py:761-770 | a delivered write commits exactly over the expected ledger, and the run goes on only with its answer |
| FounderRuns.UnusableEffect | tooling/founder_bootstrap_pep.py:920-930 | a run whose effect came back unusable goes on to persist its loss, exactly if that step is legal, and never returns |
| FounderController.FounderTable.Replace | tooling/founder_bootstrap_pep.py:1261-1312 | the conditional put on version, digest, state and counters commits exactly over the expected ledger |
| FounderController.PersistUncertainAfterEffect | tooling/founder_bootstrap_pep.py:728-758 | always a failure; UNCERTAIN is reported only when it is durable; refused exactly if the clock ran back; if nobody else writes, it is reported exactly if the write got through and its answer or that of the readback arrived |
| FounderController.FinalizeAfterEffect | tooling/founder_bootstrap_pep.py:761-793 | it returns the final ledger only if that is durable, and otherwise the uncertain failure only with a durable UNCERTAIN; if nobody else writes, both happen exactly as the answers of its calls decide |
| FounderController.Claim | tooling/founder_bootstrap_pep.py:707-717 | a claim without confirmation by readback: success means that this run committed it |
| FounderController.RunFounderPlanOnce | tooling/founder_bootstrap_pep.py:895-936 | the effect starts only after this run's own claim is durable; it commits nothing but its claim, a review and UNCERTAIN; a normal return means that the effect came back within the Plan window and its change set and both digests are durable; without interference and loss it returns exactly if claim and review are legal |
| FounderController.RunFounderApplyOnce | tooling/founder_bootstrap_pep.py:939-983 | the same for Apply: it commits nothing but its claim, SUCCEEDED and UNCERTAIN, with SUCCEEDED durable on a normal return |
| TarPreflight.PreflightTar | tooling/frontend_release_archive.py:151-174 | accepts exactly a run of records with padded data within the limits, followed by at least 1024 zero bytes in whole blocks; otherwise it gives the code of the first thing wrong |
| TarPreflight.Unambiguous | tooling/frontend_release_archive.py:154-173 | a buffer can be read as records in one way only |
| TarPreflight.VerdictIsUnique | tooling/frontend_release_archive.py:151-174 | no buffer is both an archive and refused, or refused with two codes |
| TarPreflight.HeaderRoundTrip | tooling/frontend_release_archive.py:165-169 | a size written as eleven octal digits and a NUL is read back, for files and directories |
| TarPreflight.PackedArchiveFits | tooling/frontend_release_archive.py:177-183 | every archive within the limits, packed to whole 10240 bytes, is accepted and fits the decompression bound |
| TarPreflight.PackedEntriesAccepted | tooling/frontend_release_archive.py:161-172 | a packed list of entries is accepted exactly if its count and its total are within the limits |
| TarPreflight.OthersAreRefused | tooling/frontend_release_archive.py:163-164 | a member of any type but file and directory is refused, wherever it comes |
| TarPreflight.OnlyFilesAndDirectories | tooling/frontend_release_archive.py:163-171 | an accepted archive holds files and directories only, and only files have data |
| ZipDirectory.CheckDirectory | tooling/frontend_release_archive.py:197-220 | accepts exactly a single-disk archive whose central directory is partitioned into the declared number of records; otherwise it gives the first thing wrong |
| ZipDirectory.WalkRecords | tooling/frontend_release_archive.py:209-219 | the walk finds a partition of the directory into that many records, or the record it stops at |
| ZipDirectory.OnePartition | tooling/frontend_release_archive.py:207-208 | a directory has one partition into records |
| ZipDirectory.DeclaredCountIsTrue | tooling/frontend_release_archive.py:207-220 | the declared count of an accepted archive is what any walk over its records counts |
| ZipDirectory.NeverBoth | tooling/frontend_release_archive.py:199-220 | an archive of the grammar is never refused |
| ZipDirectory.OneRefusal | tooling/frontend_release_archive.py:197-220 | a refused archive is refused for exactly one reason |
| ZipDirectory.WrittenArchiveAccepted | tooling/frontend_release_archive.py:197-220 | any local part followed by a directory of listed names and its end record, numbers written with the low byte first, is accepted |
| ArchivePath.AcceptedSpellings | tooling/frontend_release_archive.py:89-101 | a raw path is accepted as a name exactly if it is one of at most four spellings of that clean name, or a spelling of the root directory |
| ArchivePath.CleanIsPlain | tooling/frontend_release_archive.py:97-101 | a name is clean exactly if it is of plain characters in at most 32 segments, none of them empty or hidden, and at most 1024 characters |
| ArchivePath.CleanLeadsDown | tooling/frontend_release_archive.py:92-101 | a clean path, followed from where it is unpacked, leads down one level for each segment |
| ArchivePath.FoldsTogether | tooling/frontend_release_archive.py:120 | two texts fold together exactly if they differ only in the case of letters from A to Z |
| ArchivePath.ParentIsPrefix | tooling/frontend_release_archive.py:141-142 | joining the first parts of a path gives the path or what stands before one of its slashes |
| ArchivePath.SlashIsParent | tooling/frontend_release_archive.py:140-142 | what stands before a slash is found among the joined parts |
| ArchiveInventory.Inventory.Add | tooling/frontend_release_archive.py:113-133 | an entry is accepted exactly if there is room for it, its path is good and new up to case, and it is an empty directory or a file of the declared size within the limits; it becomes the last name and asset with its exact bytes, and otherwise is refused with the first fault |
| ArchiveInventory.Inventory.Finish | tooling/frontend_release_archive.py:135-148 | accepted exactly if there is an index page and no two entries or implied directories differ by case only and nothing lies under a file; all assets come back in strict order |
| ArchiveInventory.WalkParents | tooling/frontend_release_archive.py:138-147 | the inner walk keeps one spelling for each folded parent, or names the real collision or the real file |
| ArchiveInventory.NoFileIsAnAncestor | tooling/frontend_release_archive.py:146-147 | in an accepted tree no file is an ancestor of another entry, even ignoring case |
| ArchiveInventory.SizesAddUp | tooling/frontend_release_archive.py:85 | the sizes of the sorted assets add up to the bounded total |
| AtomicPublication.ResolveDestination | tooling/account_ready_v2_materializer.py:694-738 | it hands out a descriptor only for a usable, free destination and keeps none on an error; what a look at the parent and its opening found decides between success and each error |
| AtomicPublication.CreateTemporary | tooling/account_ready_v2_materializer.py:763-778 | a temporary never takes the place of an entry; it gives up after a call that fails or after 32 random names |
| AtomicPublication.Fill | tooling/account_ready_v2_materializer.py:815-824 | filling a temporary works exactly if no call of it fails, closing it included; then its content is the payload unless others took it |
| AtomicPublication.Stage | tooling/account_ready_v2_materializer.py:812-826 | a staged payload is complete unless others took the temporary, a half-filled temporary is reported for removal, and its descriptor is closed either way |
| AtomicPublication.LinkBoth | tooling/account_ready_v2_materializer.py:827-844 | links are made only under free names, each one made is recorded, and each publishes what its temporary held, unless others had replaced that; each is made after a look that found the parent in place, and counts only if another one follows; without a hindrance both are made exactly if both names are free and both parents unchanged |
| FileSystems.FileSystem.SafeUnlink | tooling/account_ready_v2_materializer.py:754-760 | whoever made the entry, a working unlink removes it; it does harm exactly if others had replaced the entry of this program under that name, and the error is swallowed |
| FileSystems.FileSystem.Link | tooling/account_ready_v2_materializer.py:834-840 | a link never takes the place of an entry and publishes what stands under the source at that call: the content of this program, or what others put there |
| AtomicPublication.UnlinkAll | tooling/account_ready_v2_materializer.py:754-760 | each of the names is unlinked once and in order; no entry of this program under another name goes; unless others took entries, exactly the names whose unlink worked are gone |
| AtomicPublication.WriteOutputs | tooling/account_ready_v2_materializer.py:781-864 | with any fault at any call and others creating and removing entries in between: descriptors are as before; an entry of others is removed if and only if a working unlink meets one that they put in place of an entry of this program; success has linked both outputs from their temporaries, unlinked exactly these, each link stands between two looks that found its parent in place and another one follows the unlinks, and each output is its payload unless others had replaced or taken its temporary or took the output; failure has unlinked everything this program made; without losses to others success has both exact payloads and nothing else exactly if no unlink failed, and failure leaves nothing exactly if no unlink failed; without a disturbance, unlinks failing or not, and with others that only replace temporaries, it succeeds exactly for two usable, free, different destinations |
| AtomicPublication.LeavesTemporaryBehind | tooling/account_ready_v2_materializer.py:845-847 | an empty directory in which only unlinks fail: success is reported and a temporary is still there |
| AtomicPublication.PublishesReplacements | tooling/account_ready_v2_materializer.py:827-847 | a run of the whole publication in an empty directory where others replace every temporary before each call: it reports success, both outputs hold what others wrote, and entries of theirs have been removed |
| PlanSummary.Summarize | tooling/nonprod_live_engine.py:270-436 | a plan is summarized exactly if it is complete, well formed, within the limits, not destructive and applyable exactly if something would be done; the summary is faithful and passes the validation |
| PlanSummary.SummarizeResources | tooling/nonprod_live_engine.py:341-393 | counts per action, one entry for each change that is not a no-op and no other, strictly sorted by address digest |
| PlanSummary.SummarizeOutputs | tooling/nonprod_live_engine.py:306-339 | the same for output changes, by name |
| PlanSummary.Validate | tooling/nonprod_live_engine.py:439-530 | accepts exactly the summaries whose counts add up, whose manifests are strictly sorted and well formed, without destruction, applyable exactly if classified CHANGE |
| PlanSummary.FaithfulIsValid | tooling/nonprod_live_engine.py:270-530 | every faithful summary passes the validation |
| PlanSummary.FaithfulIsUnique | tooling/nonprod_live_engine.py:415-436 | a plan has one faithful summary |
| PlanSummary.SummaryIsCanonical | tooling/nonprod_live_engine.py:393 | listing the same resource changes in another order gives the same summary, digest included |
| PlanSummary.CountsAddUp | tooling/nonprod_live_engine.py:458 | the counts of a plan add up to the number of its changes |
| PlanSummary.CountsSpelled | tooling/nonprod_live_engine.py:341-393 | each count is the number of changes in the plan with that list of actions |
| PlanSummary.EntriesSpelled | tooling/nonprod_live_engine.py:341-393 | the entries are exactly those of the changes that do something, with type, name, action and the digest of the address |
| PlanSummary.OutputEntriesSpelled | tooling/nonprod_live_engine.py:306-339 | the same for outputs, with name and action |
| PlanSummary.OnlySafePlans | tooling/nonprod_live_engine.py:270-390 | a plan that is summarized has the supported format, is complete, and holds no error, drift, move, import, deposed object or destruction |
| PlanSummary.FromCounts | tooling/nonprod_live_engine.py:1701-1731 | the applyable flag and the classification that the counts call for are those of the changes themselves |
| PlanSummary.IdentifiersSpelled | tooling/nonprod_live_engine.py:265 | types and names are at most 128 letters, digits, underscores and dashes, and begin with a letter or an underscore |
| PlanSummary.EncodedIsUtf8 | tooling/nonprod_live_engine.py:354 | the size of an address is the number of its bytes in UTF-8, from which each character is read back (`Utf8ReadsBack`) |
| StoredSummaries.ValidIsFaithfulIff | tooling/nonprod_live_engine.py:439-530 | a summary that passes the validation is, without the changes that do nothing, the summary of some plan exactly if its counts are those of its entries, which the validation does not compare |
| StoredSummaries.FaithfulCountsMatch | tooling/nonprod_live_engine.py:341-436 | in the summary of a plan the counts are those of the entries |
| StoredSummaries.DestructionIsOverlooked | tooling/nonprod_live_engine.py:487 | a concrete summary that passes the validation, counts one creation, lists one deletion, and is not the summary of any plan |
| DeploymentRegistry.ConditionIsExact | tooling/deployment_registry.py:102-149 | the condition of an update holds of a stored record exactly if that is the record the update was prepared from |
| DeploymentRegistry.FollowersAreExact | tooling/deployment_registry.py:72-132 | a valid record is followed exactly by itself at a next stage, or by itself migrated to schema 2 with some runtime origin, with the next version |
| DeploymentRegistry.VersionCountsWrites | tooling/deployment_registry.py:60-87 | in every history the version is the number of committed writes |
| DeploymentRegistry.NothingIsLost | tooling/deployment_registry.py:121-132 | identity fields never change, the schema never goes back, a runtime origin is frozen, the lifecycle never moves back |
| DeploymentRegistry.MigratesOnce | tooling/deployment_registry.py:88-101 | the schema changes at most once, from 1 to 2, with the status kept |
| DeploymentRegistry.ArchivedIsFinal | tooling/deployment_registry.py:34-42 | ARCHIVED is never left, and one more write at most can follow, the migration |
| DeploymentRegistry.LifecycleCanBePublished | tooling/deployment_registry.py:34-42 | a deployment of either schema can be published on every way from REQUESTED to ARCHIVED |
| DeploymentRegistry.MigrationCanBePublished | tooling/deployment_registry.py:88-101 | a record of schema 1 can migrate in every stage, and nothing else about it changes |
| DeploymentRegistry.OnlyLifecycleSteps | tooling/deployment_registry.py:34-42 | within one schema a stage is followed only by the stages the lifecycle lists for it |
| RegistryPublication.RegistryTable.Put | tooling/deployment_registry_io.py:273-303 | the conditional write commits exactly on top of the record it was prepared from and keeps the history one; a refusal means that it did not commit |
| RegistryPublication.Publish | tooling/deployment_registry_io.py:255-316 | at most one write, sent only in time and only for the approved record with the facts of its baseline, and committed only over the record the previous anchor names; success means that this very record was committed once by this call, at the position of its version, and was read back, decoded and accepted as the latest; a conflict, that nothing was committed; without interference it succeeds exactly for an approved operation whose version the decoder accepts |
| AttributeCodec.ReadBack | tooling/deployment_registry_io.py:77-102 | what is encoded decodes to itself exactly if it is built from text, integers from 0 to below 10 to the 38, and tables, in whatever order; every other encodable value is refused on reading |
| AttributeCodec.WriteBack | tooling/deployment_registry_io.py:91-102 | what is accepted on reading is encoded as it was read |
| AttributeCodec.NumeralRange | tooling/deployment_registry_io.py:97-98 | an integer's text matches the numeral pattern exactly in that range, and is read back |
| RegistryItems.ItemIsAccepted | schemas/deployment-target.v2.schema.json:7-64 | the item of a valid record of either schema is accepted as that record |
| RegistryItems.AcceptedIsItem | schemas/deployment-target.v1.schema.json:7-51 | whatever is accepted is, field by field and with no field more, the item of one valid record |
| RegistryItems.RecordSurvives | tooling/deployment_registry_io.py:91-102 | every valid record can be written and is read back as itself exactly if its version is below 10 to the 38 |
| RegistryItems.HistorySurvives | tooling/deployment_registry_io.py:228-240 | so every record of a history of fewer than 10 to the 38 writes is read back as it was written |
| PdfText.EscapeByChar | tooling/generate_bank_statement_fixtures.py:66 | the three replacements in their order escape each character on its own |
| PdfText.LiteralRoundTrip | tooling/generate_bank_statement_fixtures.py:66-67 | a reader of literal strings (section 7.3.4.2 of ISO 32000-1) gets the text back up to its end-of-line markers and stops at the right parenthesis |
| PdfText.WritePageStream | tooling/generate_bank_statement_fixtures.py:58-70 | the loop writes the stream that shows the lines |
| PdfText.PageTextSurvives | tooling/generate_bank_statement_fixtures.py:58-70 | a reader of the stream gets one string for each line, and the text itself exactly if it has no carriage return |
| PdfText.PagesShowEverything | tooling/generate_bank_statement_fixtures.py:286-292 | the slices of all pages concatenate to the full list, for every number of pages, and none exceeds its share |
| PdfText.ShareIsLeast | tooling/generate_bank_statement_fixtures.py:286-289 | the share of a page is the least number, but at least one, for which the pages suffice |
| PdfWriter.PageLeadsToItsParts | tooling/generate_bank_statement_fixtures.py:43-50 | the contents and font references of a page, read where they stand, lead to its own stream and to the font object |
| PdfWriter.TrailerLeadsToInfo | tooling/generate_bank_statement_fixtures.py:81-105 | the size in the trailer counts the objects and the free entry, and the information reference leads to the last object |
| PdfWriter.ContentsAt | tooling/generate_bank_statement_fixtures.py:39-83 | each object is at the position its number says |
| PdfWriter.ObjectAt | tooling/generate_bank_statement_fixtures.py:30-31 | objects are numbered from one in order |
| PdfWriter.LengthIsExact | tooling/generate_bank_statement_fixtures.py:72 | the declared length is the size of what stands between the stream markers |
| PdfWriter.RowRoundTrip | tooling/generate_bank_statement_fixtures.py:96-97 | a row has twenty bytes exactly if its offset has at most ten digits, and then the offset is read back |
| PdfWriter.TableFindsObject | tooling/generate_bank_statement_fixtures.py:85-97 | following row k + 1 of the table leads to object k + 1 (section 7.5.4 of ISO 32000-1) |
| PdfWriter.StartPointsAtTable | tooling/generate_bank_statement_fixtures.py:93-106 | the number after startxref is where the table begins, and the document ends there |
| PdfWriter.Assemble | tooling/generate_bank_statement_fixtures.py:85-108 | the loops write header, objects, table and trailer as the document, or nothing for a character outside ASCII |
| PdfWriter.EncodableIffTextsAre | tooling/generate_bank_statement_fixtures.py:85-88 | all objects are ASCII exactly if the texts of all pages are |
| PdfWriter.WritePdf | tooling/generate_bank_statement_fixtures.py:22-108 | the document of the numbered objects of all pages; a failure exactly for a page without a text or with a character outside ASCII in it |
| PdfReader.KidsLeadToPages | tooling/generate_bank_statement_fixtures.py:37-51 | in the document, the kids array read where it stands in the page tree has one reference for each page, and the i-th leads over a page object to the i-th stream |
| PdfReader.DocumentReadsBack | tooling/generate_bank_statement_fixtures.py:22-108 | a reader of the whole document, from startxref over table, trailer, catalog, page tree and pages to the streams (sections 7.5 and 7.7 of ISO 32000-1), gets the lines of every page in order |
| PdfReader.TextsReadBack | tooling/generate_bank_statement_fixtures.py:22-108 | and so the text of every page, each exactly if it has no carriage return |
| MappingRewrite.BindingKeepsValue | tooling/destination_baseline_package.py:53-79 | the value of an accepted template after binding is its value before, with both mappings given an entry for the pinned deployment |
| MappingRewrite.OnlyLookupsChange | tooling/destination_baseline_package.py:66-79 | undoing the bound lookups gives the original template: nothing else changes |
| MappingRewrite.BoundOnce | tooling/destination_baseline_package.py:73-75 | a second binding is accepted exactly if there was nothing to bind |
| MappingRewrite.FilledHolds | tooling/destination_baseline_package.py:60-64 | each of the two mappings has one entry with its one field, the name of the deployment with dashes and small letters, and that with the suffix of the bucket; other mappings are as before |
| MappingRewrite.OnlyRefIsReplaced | tooling/destination_baseline_package.py:73-74 | in the evaluation of templates a dictionary with one plain field stands for a parameter exactly if the field is Ref |
| TemplateNodes.Template.VisitPlace | tooling/destination_baseline_package.py:66-78 | in place, on lists and dictionaries that may stand in several places: it succeeds exactly if nothing it reaches is at fault and it reaches no lookup to be bound twice, and then exactly the lookups it reached have changed |
| TemplateNodes.FaultIsRefusal | tooling/destination_baseline_package.py:66-78 | the first fault a visit in place meets is the error of the rewriting of the value, and none exactly if that succeeds |
| TemplateNodes.ValueAfter | tooling/destination_baseline_package.py:66-78 | once the lookups reached are bound, every place has the rewritten value, whatever else is bound |
| TemplateNodes.Template.BindDeploymentMappings | tooling/destination_baseline_package.py:53-79 | both mappings have the one entry "Bound" with the name of the deployment, spelled out, and its bucket, and the bound lookups give these; it succeeds exactly if the value can be rewritten and no lookup to be bound is reached twice; an accepted template keeps its value |
| TemplateNodes.SharedLookupIsRefused | tooling/destination_baseline_package.py:73-76 | a concrete template with one lookup in two places, whose value can be rewritten and which is refused |
| MountedRoutes.FlattenedIffSound | tooling/edge_route_policy.py:287-290 | a router is flattened exactly if no walk over its includes comes back to a router it has passed and every router on the way is well formed where it is mounted |
| MountedRoutes.FlattenIsMounting | tooling/edge_route_policy.py:287-402 | the rows are the mounted routes, prefixes joined along each include path, each path once and none missing |
| MountedRoutes.TrailsInOrder | tooling/edge_route_policy.py:340-380 | rows come in the order of the statements, outermost first |
| MountedRoutes.MountedInventory.Collect | tooling/edge_route_policy.py:287-402 | the method terminates on every include graph, gives the flattening or fails with it, and restores its stack |
| MountedRoutes.MountedInventory.Inventory | tooling/edge_route_policy.py:404-411 | accepted exactly if the graph is sound and no two routes have one method and one path up to parameter names; the rows come back in order of method and path |
| MountedRoutes.PathsAreSpelled | tooling/edge_route_policy.py:32 | a path is accepted exactly if it is made of words and named parameters, at least one, each after a slash |
| MountedRoutes.PrefixesAreWords | tooling/edge_route_policy.py:284 | a prefix is empty or made of words only |
| MountedRoutes.ItemsAreExact | tooling/edge_route_policy.py:362-365 | which statements a router may hold: a route whose suffix is empty or a path, whose whole path is one and whose operations differ, and an include with a prefix without parameters |
| MountedRoutes.SamePattern | tooling/edge_route_policy.py:404-411 | two paths are the same once parameter names are erased exactly if they agree segment by segment, any parameter with any other |
| ScopePolicy.ActionSetIsExact | tooling/edge_route_policy.py:120-135 | an expression is accepted with a set exactly if following its names ends at that set of known, different actions |
| ScopePolicy.NoNameTwice | tooling/edge_route_policy.py:121-123 | a name that comes again never ends, so that refusing it loses nothing |
| ScopePolicy.MembersAreExact | tooling/edge_route_policy.py:128-134 | a literal is accepted exactly if its elements are known and different, and gives those elements |
| ScopePolicy.Candidates | tooling/edge_route_policy.py:463-467 | the candidates are exactly the scopes that no caller lacks who may perform one of the operations of the route |
| ScopePolicy.VerifyRows | tooling/edge_route_policy.py:454-469 | the table is emitted exactly if every row is about a mounted route with its operations and a scope that nobody lacks who may perform one of them, and no route comes twice |
| ScopePolicy.NecessaryIsNeeded | tooling/edge_route_policy.py:463-467 | the scopes computed for an operation are exactly those no person and no machine lacks that passes its own scope check |
| Ordering.SortedIsPermutation | tooling/nonprod_live_engine.py:393 | sorting by distinct keys loses nothing, adds nothing and orders strictly |
| Ordering.OneArrangement | tooling/nonprod_live_engine.py:494-496 | there is one strictly sorted arrangement, which is what comparing with the sorted list relies on |
| Digests.DigestsAreTexts | tooling/nonprod_live_engine.py:27 | the text of a digest is accepted exactly if it is that of 64 half bytes |
| Digests.TextDetermines | tooling/nonprod_live_engine.py:27 | different digests have different texts |

## Left out

- The AWS, GitHub and HTTP clients, subprocesses, argument parsers, printed receipts and file custody checks: only whether a call answers, and with what, enters the models.
- SHA-256, JSON text and the schema files: a digest is injective, a schema is a record type with the checks the code makes beside it. Sealed context records are compared as a whole.
- `PlanSummary.Summarize` assumes that the address digests of one plan do not collide; on a collision the code returns a summary that its own validation refuses.
- The tail of the controller inside `ApplyProtocol` is looser than the code (it may settle at any time and in any order); `ApplyOutcome.FinishAttempt` models that tail call by call for one process.
- Reads of the terminal phases, the GitHub approval evidence and the files next to `apply-intent.json`: a process may stop at any of them (`Fail`), which covers their errors.
- The status QUARANTINED, which no transition leads to, and the plan phase of the controller.
- `classify_apply_observation` with the observation FAILURE: the controller never reports it; the transition to FAILED is a bookkeeping step.
- The founder revocation receipt beyond what binds it to its ledger, policy rendering and table controls.
- `tarfile`, `zipfile`, `zlib` and the second pass they make over an accepted archive, the content types of assets, and per-member zip attributes.
- ArchivePath.AcceptedSpellings: paths are sequences of characters; accepted names are ASCII, for which case folding is lower-casing.
- AtomicPublication.WriteOutputs: a crash of the process is not modelled, nor is a process that changes the content of an entry in place; nothing is said of an output that others take after it was linked.
- RegistryItems.ItemIsAccepted: the patterns of the schema for single texts (identifiers, ARNs, digests) are not modelled; any text stands for one that matches.
- The generator around the PDF writer: rendering of single fields, line wrapping and the control recipes.
- TemplateNodes.Template.VisitPlace: a list or dictionary that contains itself through a recursive alias is outside its precondition; the code would recurse until Python stops it. The `Mappings` section holds literal values and is not visited.
- The Python syntax checks that extract a router graph from source files, and the digests of the files read: `MountedRoutes` starts from the extracted graph.
- `merge_overrides`, `get_null_policy`, the approval-window checks, `application_storage_*`, `identity_adapters.py`, `deployment_infrastructure_selection.py`, `destination_bootstrap_package.py` and `founder_bootstrap_exception.py`: single steps or field equalities that would add easy members.
