# Verified model of the engine's ledger and its derived state

The engine is an append-only event log with derived state. This project models four state machines
over that log in Dafny and proves what their code promises:

- **Integrity** (`LedgerTheorems`, `HashChain`, `IntegrityStreams`, `IntegrityTheorems`, `IntegrityCheckpoints`,
  `IntegrityScenarios`, `IntegrityService`): hash-chained streams, full and incremental verification from checkpoints, quarantine and governed release.
- **Submissions and the observation read model** (`Database`, `Submission`, `SubmissionTheorems`,
  `SubmissionContents`, `SubmissionService`, `Projections`, `ProjectionTheorems`, `ProjectionReports`,
  `ProjectionService`): the find / write /
  race-resolution protocol of any number of clients, and the live table against a replay of the log.
- **The epistemic loop** (`Evaluation`, `Epistemic`, `EpistemicRuns`, `EpistemicMirror`,
  `EpistemicTheorems`, `EpistemicChains`, `EpistemicGates`, `EpistemicLifecycle`, `EpistemicHistory`,
  `EpistemicRetirement`, `EpistemicVerification`, `EpistemicReplies`, `EpistemicRecords`, `EpistemicScenarios`,
  `EpistemicService`, `Assessing`): propose, activate, evaluate, retire; the belief chain;
  terminal gating; rebuild.
- **Cohort selection and wellbeing input** (`Eligibility`, `EligibilityTheorems`, `CohortTheorems`, `CohortReasons`,
  `CohortChanges`, `ObservationScan`, `Fingerprint`, `Wellbeing`).

`Common` and `Ledger` hold what they share. `dafny verify dfyconfig.toml` checks everything.

## How the code is modelled

- A hash is symbolic: a digest is a constructor over the material and the previous digest. Payload
  hashes, checksums and fingerprints are likewise the text or columns they digest.
- Each use case is a function from state to state or error, one transaction each; the services are
  classes whose methods work in place and are proved against those functions. The theorems are about the
  functions and about runs of interleaved steps.
- In the epistemic loop a transaction reads one state of the run and commits onto a possibly later one.
  Atomic runs are those where the two are the same.
- Ids and clock readings are parameters. Where the code draws a fresh id, the step requires it to be new.
- Scores, posterior numbers and thresholds are real numbers.

## Where code and documentation disagree

The model follows the code in each case.

- `README.md:197` and the docstring at `src/intelligence_maxxxing/application/use_cases/submit_observation.py:8-15`
  give the idempotency scope as application, owner, action and key. The events table
  (`src/intelligence_maxxxing/infrastructure/database/tables.py:31-36`) is unique on application, one constant scope and key,
  whatever the owner and action. Hence the "winning record not readable" branch is reachable
  (`UnreadableExactly`, `UnreadableIsReachable`).
- `src/intelligence_maxxxing/domain/audit/integrity.py:39-40` says that removing any past event breaks every
  later hash. A removed tail and an event from before the chain began go unnoticed (`DropsThatPass`).
- `src/intelligence_maxxxing/infrastructure/repositories/projections.py:43` says that replay overwrites rows
  with the same values. A row stored without a client time gets the time of its event
  (`RebuildKeepsRowsExactly`), which changes cohorts under an exact condition (`DatingKeepsEligibleExactly`).
- Quarantine is meant for every stream. A broken system stream makes the whole verification pass roll
  back, so that no stream is quarantined (`VerifyCommitsExactly`, `BrokenSystemStreamBlocksQuarantine`).
- Rebuild anchors an experiment at its registration, live at its activation
  (`src/intelligence_maxxxing/application/use_cases/epistemic_projections.py:411-416`), and replay knows no
  fingerprints. The epistemic verification (`:191-219`) therefore matches exactly when every activation and
  every evaluation was followed by a rebuild (`VerifiesExactly`), and a rebuild forgets which fingerprints
  were evaluated (`RecognisedExactly`). The moved anchor itself changes no cohort (`MovedAnchorKeepsAssessment`).
- An evidence event carries how many rows were eligible, the live progress how many are in the cohort of the
  phase (`src/intelligence_maxxxing/application/use_cases/epistemic_projections.py:495-510`), so replayed progress counts
  more than live unless all are (`ProgressAgreesExactly`).
- Retirement is meant to be final. It is left exactly by an evaluation that read before it and commits
  after it (`RetiredIsLeftExactly`, `RetiredExactly`; `RetirementCanBeUndone` is such a run).
- Activation is meant to happen once. It does for activations that read one snapshot; a second one commits
  exactly when its version was read later than its status (`ActivationRepeatsExactly`;
  `SplitReadsActivateTwice` is such a history).

## Model

| member | source | states |
|---|---|---|
| `HashChain.VerifyChain` | src/intelligence_maxxxing/domain/audit/integrity.py:51-81 | the loop, proved against a loop-free definition: it reports the first event that does not fit onto the last hash before it, and nothing when every event fits |
| `HashChain.VerdictMeaning` | src/intelligence_maxxxing/domain/audit/integrity.py:69-81 | verification passes exactly when every event is linked to the tip of the events before it, and otherwise names the least event that is not |
| `HashChain.VerificationSplits` | src/intelligence_maxxxing/domain/audit/integrity.py:58-70 | a range verified from the tip of a passing prefix gets the verdict of verifying prefix and range together |
| `HashChain.BrokenPrefixDecides` | src/intelligence_maxxxing/domain/audit/integrity.py:71-78 | once a prefix is broken, nothing that follows changes the reported event |
| `HashChain.AppendKeepsPassing` | src/intelligence_maxxxing/infrastructure/event_store/sqlalchemy_event_store.py:235-284 | an event hashed over its content and the tip keeps a passing chain passing and becomes the new tip |
| `HashChain.ChainDeterminesHistory` | src/intelligence_maxxxing/domain/audit/integrity.py:17-48 | two passing streams that end in the same hash have the same hashed events: same number, order, actor and all fifteen canonical fields |
| `HashChain.TipSpellsHistory` | src/intelligence_maxxxing/domain/audit/integrity.py:36-48 | the tip of a passing chain spells out exactly the materials of its hashed events, oldest first |
| `HashChain.UnhashedPrefix` | src/intelligence_maxxxing/domain/audit/integrity.py:66-75 | in a passing stream the events without a hash are exactly a prefix |
| `HashChain.EditIsFoundInPlace` | src/intelligence_maxxxing/domain/audit/integrity.py:69-81 | rewriting the content of a hashed event in place is reported at that event exactly when a hashed field changed |
| `HashChain.ReplacementIsFound` | src/intelligence_maxxxing/domain/audit/integrity.py:69-81 | replacing a hashed event that is not the last by any event at all passes only if the hashed columns are the same; otherwise the report is that event or its successor |
| `HashChain.DeletionIsFoundAtSuccessor` | src/intelligence_maxxxing/domain/audit/integrity.py:69-81 | deleting a hashed event that is not the last is reported at its successor |
| `HashChain.DropsThatPass` | src/intelligence_maxxxing/domain/audit/integrity.py:51-81 | what verification cannot see: a dropped tail, and a deleted event from before the chain began |
| `HashChain.AppendExposesDroppedTail` | src/intelligence_maxxxing/infrastructure/event_store/sqlalchemy_event_store.py:239-240 | after a dropped tail the next append is the first break exactly when the tail held a hashed event |
| `HashChain.TipMovesWithHashes` | src/intelligence_maxxxing/domain/audit/integrity.py:76-80 | extending a passing chain moves its tip exactly when a hashed event was added |
| `LedgerTheorems.RejectionsExactly` | src/intelligence_maxxxing/infrastructure/event_store/sqlalchemy_event_store.py:235-275 | an append is rejected for the first of five causes that applies: quarantined stream, payload that does not fit, version out of turn, event id taken, key taken; each stated over the log and heads themselves |
| `LedgerTheorems.AcceptedAppends` | src/intelligence_maxxxing/infrastructure/event_store/sqlalchemy_event_store.py:239-284 | an accepted append adds one event at the next position, hashed over its content and the hash of its stream's head, and moves that head alone onto it |
| `IntegrityStreams.StreamSplits` | src/intelligence_maxxxing/infrastructure/event_store/sqlalchemy_event_store.py:176-193 | a stream is its events up to a position followed by those past it |
| `IntegrityStreams.UptoTheLast` | src/intelligence_maxxxing/application/use_cases/integrity.py:354-371 | the position of the last event checked covers the whole stream as it is |
| `IntegrityTheorems.RecordedHashIsTheTip` | src/intelligence_maxxxing/application/use_cases/integrity.py:357-366 | the hash a checkpoint records, the last one or else the anchor, is the whole state of the verification loop, legacy-only ranges included |
| `IntegrityTheorems.IncrementalIsFull` | src/intelligence_maxxxing/application/use_cases/integrity.py:331-352 | resuming from a checkpoint whose hash is the tip of its verified prefix gives the verdict of a full verification |
| `IntegrityTheorems.StepKeepsTrust` | src/intelligence_maxxxing/application/use_cases/integrity.py:121-371 | every operation, and every alteration past the checkpoints, keeps each checkpoint the verified end of its prefix |
| `IntegrityTheorems.IncrementalRefinesFull` | src/intelligence_maxxxing/application/use_cases/integrity.py:331-371 | in every run of appends, verifications in both modes, releases and alterations past the checkpoints, INCREMENTAL reports what FULL reports |
| `IntegrityCheckpoints.PassLeavesCheckpoints` | src/intelligence_maxxxing/application/use_cases/integrity.py:147-150 | a committed pass leaves every listed stream that passes with a checkpoint at its last event as it stood before the pass: position, event id, and the tip of the whole stream; a reported stream keeps the entry it had or has none |
| `IntegrityCheckpoints.NextPassReadsOnlyNew` | src/intelligence_maxxxing/application/use_cases/integrity.py:339-352 | the next incremental verification of a stream that passed reads exactly what was recorded on it since |
| `IntegrityCheckpoints.SinglePassLeavesCheckpoint` | src/intelligence_maxxxing/application/use_cases/integrity.py:354-371 | verifying or releasing one stream leaves the same checkpoint on it when it passes, and changes no other; a stream that does not pass changes nothing |
| `IntegrityCheckpoints.ReadsExactly` | src/intelligence_maxxxing/application/use_cases/integrity.py:331-352 | FULL reads the whole stream from no anchor; INCREMENTAL exactly the events past the checkpoint, anchored at its hash |
| `IntegrityCheckpoints.MarkedThroughout` | src/intelligence_maxxxing/application/use_cases/integrity.py:354-371 | in every run each checkpoint names the position and id of an event of its stream, the last of the verified prefix |
| `IntegrityCheckpoints.PassRecordsBreaks` | src/intelligence_maxxxing/application/use_cases/integrity.py:373-416 | a committed pass records its completion, and each stream that does not pass ends up quarantined, marked with its first broken event, and recorded by a violation and a quarantine event; every other head keeps status and mark |
| `IntegrityCheckpoints.SinglePassRecords` | src/intelligence_maxxxing/application/use_cases/integrity.py:213-327 | a single verification that passes records that; a release records that and clears status and mark of that stream alone |
| `IntegrityCheckpoints.HeadsTrack` | src/intelligence_maxxxing/infrastructure/event_store/sqlalchemy_event_store.py:277-284 | while nothing is altered every head counts the events of its stream and names the last one, over all runs |
| `IntegrityTheorems.ModesAgreeExactly` | src/intelligence_maxxxing/application/use_cases/integrity.py:339-351 | with an arbitrary recorded hash the two modes agree exactly when the prefix passes and the recorded hash is its tip, or cannot matter |
| `IntegrityTheorems.AnchorsAgree` | src/intelligence_maxxxing/domain/audit/integrity.py:58-64 | two anchors give one verdict exactly when they are equal, there is nothing to verify, or the first event fits neither |
| `IntegrityTheorems.QuarantinesExactlyTheBroken` | src/intelligence_maxxxing/application/use_cases/integrity.py:168-169 | a committed pass quarantines exactly the streams it reports, besides those already quarantined, whose events it leaves alone |
| `IntegrityTheorems.SystemEventCommits` | src/intelligence_maxxxing/application/use_cases/integrity.py:418-454 | with fresh ids an engine event is accepted exactly when the system stream is not quarantined |
| `IntegrityTheorems.VerifyCommitsExactly` | src/intelligence_maxxxing/application/use_cases/integrity.py:121-200 | a verification pass commits exactly when the system stream itself is intact and not quarantined; otherwise it rolls back and no stream is quarantined at all |
| `IntegrityScenarios.BrokenSystemStreamBlocksQuarantine` | src/intelligence_maxxxing/application/use_cases/integrity.py:121-200 | a concrete run in which a broken system stream leaves another broken stream unquarantined |
| `IntegrityTheorems.AppendRespectsQuarantine` | src/intelligence_maxxxing/infrastructure/event_store/sqlalchemy_event_store.py:343-348 | an accepted append leaves a quarantined stream quarantined and its events as they were |
| `IntegrityTheorems.KillSwitchStep` | src/intelligence_maxxxing/application/use_cases/integrity.py:252-298 | one step on a quarantined stream changes none of its events and ends the quarantine only as an administrator's release of that stream after it verified in full |
| `IntegrityTheorems.KillSwitch` | src/intelligence_maxxxing/application/use_cases/integrity.py:252-298 | over any run, from quarantine to release not one event of a stream other than the system's changes, and the release finds the stream passing |
| `IntegrityTheorems.UnalteredStreamsVerify` | src/intelligence_maxxxing/application/use_cases/integrity.py:121-200 | a stream whose recorded events are never altered verifies in both modes and is never quarantined, whatever happens to other streams |
| `IntegrityService.IntegrityVerificationService.Verify` | src/intelligence_maxxxing/application/use_cases/integrity.py:121-200 | the transaction in place: all streams checked, clean checkpoints advanced, broken streams quarantined and recorded, or nothing at all |
| `IntegrityService.IntegrityVerificationService.VerifySingle` | src/intelligence_maxxxing/application/use_cases/integrity.py:213-250 | full verification of one stream: advances its checkpoint and records it when it passes, reports without quarantining when not |
| `IntegrityService.IntegrityVerificationService.UnquarantineStream` | src/intelligence_maxxxing/application/use_cases/integrity.py:252-327 | the release transaction, or the error that left every table unchanged |
| `IntegrityService.IntegrityVerificationService.CheckStream` | src/intelligence_maxxxing/application/use_cases/integrity.py:331-352 | the range and anchor of the mode, verified by the loop |
| `IntegrityService.IntegrityVerificationService.CheckStreams` | src/intelligence_maxxxing/application/use_cases/integrity.py:126-133 | one outcome per stream key, in order |
| `IntegrityService.IntegrityVerificationService.AdvanceCheckpoints` | src/intelligence_maxxxing/application/use_cases/integrity.py:147-150 | the checkpoint loop advances exactly the streams that verified cleanly |
| `IntegrityService.IntegrityVerificationService.QuarantineViolations` | src/intelligence_maxxxing/application/use_cases/integrity.py:168-169 | the quarantine loop, up to the first rejected event |
| `IntegrityService.ReleaseExactly` | src/intelligence_maxxxing/application/use_cases/integrity.py:252-327 | a release commits exactly for an administrator, on a known stream that verifies in full, while the system stream takes the event (it always does when it is the one released); both refusals have their exact condition; it releases that stream alone and appends one event |
| `IntegrityService.VerifySingleExactly` | src/intelligence_maxxxing/application/use_cases/integrity.py:213-250 | verifying one stream errs exactly for an unknown stream, or for a passing one while the system stream is quarantined; a stream that does not pass changes nothing |
| `Submission.CommitKeepsBalance` | src/intelligence_maxxxing/application/use_cases/submit_observation.py:183-298 | the write transaction keeps accepted events, submission records and submission audits in one-to-one correspondence |
| `Submission.AppendKeepsUniqueKeys` | src/intelligence_maxxxing/infrastructure/database/tables.py:29-36 | application and key identify at most one keyed event |
| `SubmissionTheorems.ExactlyOnce` | src/intelligence_maxxxing/application/use_cases/submit_observation.py:136-298 | however many requests interleave with each other and with the rest of the engine, each application, owner and key commits at most one event with exactly one record and one audit, and none of these stands alone |
| `SubmissionTheorems.RepliesAgree` | src/intelligence_maxxxing/application/use_cases/submit_observation.py:136-181 | clients of one scope that got a reply hold the same three ids, exactly one of them was told the submission is new, and a conflict reaches exactly those whose payload differs from the winner's |
| `SubmissionTheorems.UnreadableExactly` | src/intelligence_maxxxing/application/use_cases/submit_observation.py:148-157 | the "winning record not readable" branch is taken exactly when an event of another owner or another action holds the application and key |
| `SubmissionTheorems.ReadableWithinOneScope` | src/intelligence_maxxxing/application/use_cases/submit_observation.py:148-157 | the branch is never reached where every event under the application and key is the owner's own submission |
| `SubmissionTheorems.UnreadableIsReachable` | src/intelligence_maxxxing/application/use_cases/submit_observation.py:148-157 | a concrete run that reaches the branch: a hypothesis proposed by the same application and owner under the same key |
| `SubmissionTheorems.RefindMisses` | src/intelligence_maxxxing/application/use_cases/submit_observation.py:148-156 | a raced client finds no record of its scope exactly when another owner or action holds its key |
| `SubmissionTheorems.RaceMeansTaken` | src/intelligence_maxxxing/infrastructure/repositories/unit_of_work.py:60-74 | whichever unique key raised the race, the application and key are taken |
| `SubmissionTheorems.BooksThroughout` | src/intelligence_maxxxing/application/use_cases/submit_observation.py:136-298 | the books balance and every client's answer is justified in every state of every run |
| `SubmissionService.SubmitObservationUseCase.Write` | src/intelligence_maxxxing/application/use_cases/submit_observation.py:183-305 | event, live row, audit and idempotency record together, or nothing |
| `SubmissionService.SubmitObservationUseCase.Submit` | src/intelligence_maxxxing/application/use_cases/submit_observation.py:136-157 | find, else write, else find again |
| `SubmissionService.RetriesCreateNothing` | src/intelligence_maxxxing/application/use_cases/submit_observation.py:8-15 | after an accepted submission every retry under its scope changes nothing: the same payload gets the original ids back, any other a conflict |
| `SubmissionService.RefusalsChangeNothing` | src/intelligence_maxxxing/application/use_cases/submit_observation.py:136-157 | a refused submission leaves every table as it was |
| `SubmissionContents.AcceptedStores` | src/intelligence_maxxxing/application/use_cases/submit_observation.py:183-298 | an accepted submission appends one event and adds one row, one audit and one record, each carrying the request's content field by field, the tenant id put into the context, the client's time in the row and the client's time or else the clock in the event |
| `SubmissionContents.RepliesCarryContent` | src/intelligence_maxxxing/application/use_cases/submit_observation.py:136-181 | however requests interleave, a client with a reply finds in the log the event it names, under its own scope, carrying its own content field by field |
| `Projections.BatchMeaning` | src/intelligence_maxxxing/application/use_cases/projections.py:372-410 | a batch stops exactly when it holds an event that is not known; otherwise it overlays the replayed rows and ends at its last event |
| `Projections.AfterIsSuffix` | src/intelligence_maxxxing/infrastructure/event_store/sqlalchemy_event_store.py:167-174 | reading from a position returns exactly the tail of the log past it |
| `Projections.ListingsDecideChecksums` | src/intelligence_maxxxing/application/use_cases/projections.py:425-440 | hashing two listings in position order compares exactly the eight columns by primary key |
| `ProjectionTheorems.LiveAgreesWithReplay` | src/intelligence_maxxxing/application/use_cases/projections.py:146-360 | in every run whose rebuilds read the whole log, live carries exactly the checksum of a full replay, verification matches and is not quarantined, and no rebuild meets an unknown event |
| `ProjectionTheorems.OneRowPerObservation` | src/intelligence_maxxxing/application/use_cases/projections.py:372-410 | in those runs accepted observations and live rows are in one-to-one correspondence |
| `ProjectionTheorems.CommitKeepsMirror` | src/intelligence_maxxxing/application/use_cases/submit_observation.py:222-260 | the row the write path stores is the replayed row up to an absent client time |
| `ProjectionTheorems.StepKeepsMirror` | src/intelligence_maxxxing/application/use_cases/projections.py:146-360 | whatever the read limits, live never holds a row replay would not, and holds every observation up to its checkpoint |
| `ProjectionTheorems.VerifyUnderLimit` | src/intelligence_maxxxing/application/use_cases/projections.py:321-360 | with any read limit, verifying a complete live model matches exactly when no observation lies past the limit |
| `ProjectionTheorems.RebuildKeepsRowsExactly` | src/intelligence_maxxxing/application/use_cases/projections.py:146-196 | a full rebuild gives back the very same rows exactly when no row lacks its client time |
| `ProjectionTheorems.RebuildThenResume` | src/intelligence_maxxxing/application/use_cases/projections.py:146-319 | for any read limit of at least one and any log of known events, one rebuild and enough resumes give exactly the rows, checksum and last position of a full replay |
| `ProjectionTheorems.ResumeWhenAhead` | src/intelligence_maxxxing/application/use_cases/projections.py:259-308 | resuming where live is ahead of the checkpoint changes no checksummed column |
| `ProjectionTheorems.ResumeStopsAtUnknown` | src/intelligence_maxxxing/application/use_cases/projections.py:279-293 | resuming into an unknown event commits the rows before it and leaves the checkpoint at the last event applied |
| `ProjectionTheorems.FailClosed` | src/intelligence_maxxxing/application/use_cases/projections.py:166-185 | a rebuild that fails, and every verification, leave live and the log untouched; the replay fails exactly when an event it reads is not known |
| `ProjectionReports.ReplayMeaning` | src/intelligence_maxxxing/application/use_cases/projections.py:372-410 | replay has one row per accepted observation, showing field by field the last event that accepted it |
| `ProjectionReports.ChecksumsCompare` | src/intelligence_maxxxing/application/use_cases/projections.py:425-440 | two tables have one checksum exactly when they hold the same observations with the same eight columns |
| `ProjectionReports.RebuildReports` | src/intelligence_maxxxing/application/use_cases/projections.py:146-257 | what a rebuild reads, counts, makes live, checkpoints and records, and what an unknown or a malformed event leaves |
| `ProjectionReports.ResumeReports` | src/intelligence_maxxxing/application/use_cases/projections.py:259-319 | the same for a resume from its checkpoint, or from the start |
| `ProjectionReports.VerifyReports` | src/intelligence_maxxxing/application/use_cases/projections.py:321-360 | a verification reports the rows of live, of the replay, and the events read, and matches exactly when nothing stopped it and the eight columns agree |
| `ProjectionService.ProjectionRebuildService.ApplyBatch` | src/intelligence_maxxxing/application/use_cases/projections.py:153-165 | the replay loop over skipped, handled, unknown and malformed events |
| `ProjectionService.ProjectionRebuildService.RebuildFromScratch` | src/intelligence_maxxxing/application/use_cases/projections.py:146-257 | replay into the shadow, promote, checkpoint and record, or leave live as it was |
| `ProjectionService.ProjectionRebuildService.CatchUp` | src/intelligence_maxxxing/application/use_cases/projections.py:259-319 | forward catch-up of live from the checkpoint |
| `ProjectionService.ProjectionRebuildService.VerifyLive` | src/intelligence_maxxxing/application/use_cases/projections.py:321-360 | the report, writing only the shadow table |
| `Evaluation.DecideTerminal` | src/intelligence_maxxxing/application/use_cases/evaluate_experiment_v31.py:380-407 | whatever the classifier returned, the evaluation is terminal exactly when the phase is prospective and the stored state is one of the four terminal ones, and then carries a reason |
| `EpistemicMirror.WriteAllMeaning` | src/intelligence_maxxxing/application/use_cases/epistemic_projections.py:271-273 | beliefs written one by one keep a row current only if no later row of its chain follows |
| `EpistemicMirror.WriteReadBack` | src/intelligence_maxxxing/application/use_cases/epistemic_projections.py:264-277 | writing beliefs in position order and reading them back gives the same table exactly when every current belief is the last of its chain |
| `EpistemicMirror.EvaluationReplay` | src/intelligence_maxxxing/application/use_cases/epistemic_projections.py:520-588 | replaying the events of an evaluation writes field by field the belief and learning rows the transaction wrote, and touches no hypothesis or experiment |
| `EpistemicMirror.ActivationReplay` | src/intelligence_maxxxing/application/use_cases/epistemic_projections.py:344-443 | what replaying the three events of an activation writes |
| `EpistemicMirror.UpsertIsReplay` | src/intelligence_maxxxing/infrastructure/repositories/epistemic.py:146-156 | for beliefs of one owner the store demotes exactly what replay demotes |
| `EpistemicRecords.DemotionsExactly` | src/intelligence_maxxxing/infrastructure/repositories/epistemic.py:146-156 | storing a belief ends the other beliefs of its hypothesis within its owner and application, replaying one those of its hypothesis whosever they are, and nothing else about them changes |
| `EpistemicTheorems.BeliefsAgreeWithReplay` | src/intelligence_maxxxing/application/use_cases/epistemic_projections.py:264-277 | in every run, of atomic or stale transactions and rebuilds, live beliefs and learning equal those replayed, field by field, and writing the replayed beliefs back gives them again |
| `EpistemicTheorems.MirrorThroughout` | src/intelligence_maxxxing/application/use_cases/epistemic_projections.py:191-219 | hypotheses and experiments agree with replay in what identifies and fixes them, in every state of every run |
| `EpistemicTheorems.RebuildMirrors` | src/intelligence_maxxxing/application/use_cases/epistemic_projections.py:81-189 | a rebuild leaves exactly the replayed rows |
| `EpistemicTheorems.ProtocolIsFrozen` | src/intelligence_maxxxing/application/use_cases/evaluate_experiment_v31.py:824-851 | cutoff, start, target, window, group size and thresholds of an experiment never change, whatever is evaluated or rebuilt |
| `EpistemicTheorems.ReplayAnchorsOneLater` | src/intelligence_maxxxing/application/use_cases/epistemic_projections.py:405-415 | live anchors an experiment at its activation, replay at its registration, one position later and at the same time |
| `EpistemicTheorems.AnchorMovesOnlyByRebuild` | src/intelligence_maxxxing/application/use_cases/evaluate_experiment_v31.py:824-851 | a rebuild moves an activation anchor where replay has it, an evaluation writes back the anchor it read, however stale, and nothing else touches it |
| `EpistemicVerification.AnchorOverRuns` | src/intelligence_maxxxing/application/use_cases/epistemic_projections.py:405-415 | where the transactions after an activation are atomic the experiment is anchored at the activation until the first rebuild and at the registration ever after, where replay always has it |
| `EpistemicTheorems.ReplayedChangesNothing` | src/intelligence_maxxxing/application/use_cases/evaluate_experiment_v31.py:440-478 | an evaluation is answered from an earlier one exactly when its fingerprint is taken, and then appends and writes nothing |
| `EpistemicChains.BeliefsFormOneChain` | src/intelligence_maxxxing/application/use_cases/evaluate_experiment_v31.py:531-565 | in every atomic run the beliefs of a hypothesis form one chain by previous belief, in log order, positions ascending, the last one alone current |
| `EpistemicChains.EvaluationExtends` | src/intelligence_maxxxing/application/use_cases/evaluate_experiment_v31.py:483-486 | a belief extends the chain exactly when the prior belief it read is still the chain's last one at the commit |
| `EpistemicChains.CurrentIsLast` | src/intelligence_maxxxing/infrastructure/repositories/epistemic.py:197-207 | reading the current belief of a chained hypothesis returns its last one |
| `EpistemicVerification.VerifiesExactly` | src/intelligence_maxxxing/application/use_cases/epistemic_projections.py:191-219 | in every run, of atomic or stale transactions, the epistemic verification reports a match exactly when each committed activation and evaluation was followed by a rebuild; proposals, retirements, other events and repeated fingerprints never make it fail |
| `EpistemicHistory.HistoricThroughout` | src/intelligence_maxxxing/application/use_cases/epistemic.py:784-840 | in every run the live row of a hypothesis has the terms of the replayed one, is past its proposal only if the log is, is retired only if the log says so, and its terms change only with its version |
| `EpistemicGates.GatedThroughout` | src/intelligence_maxxxing/application/use_cases/evaluate_experiment_v31.py:389-660 | in every run recorded evidence is terminal exactly when prospective with a terminal state, and the ledger holds exactly one outcome and one learning, linked to it and its belief, per terminal evidence and none otherwise |
| `EpistemicGates.EvaluationKeepsGates` | src/intelligence_maxxxing/application/use_cases/evaluate_experiment_v31.py:570-660 | the events of one evaluation link outcome and learning to the new evidence and belief and to nothing recorded before |
| `EpistemicLifecycle.ActivatedAtMostOnce` | src/intelligence_maxxxing/application/use_cases/epistemic.py:524-600 | with each transaction reading one snapshot, however stale, no hypothesis has two activation events |
| `EpistemicLifecycle.OneExperimentPerHypothesis` | src/intelligence_maxxxing/application/use_cases/epistemic.py:639-669 | nor two experiments |
| `EpistemicLifecycle.ActivationIsSecond` | src/intelligence_maxxxing/application/use_cases/epistemic.py:533-545 | an activation that saw the hypothesis proposed commits as the second event of its aggregate, or not at all |
| `EpistemicLifecycle.VersionsAreConsecutive` | src/intelligence_maxxxing/infrastructure/event_store/sqlalchemy_event_store.py:350-370 | each aggregate's versions in the ledger are exactly 1 to n, in log order |
| `EpistemicLifecycle.VersionsAreUnique` | src/intelligence_maxxxing/infrastructure/database/tables.py:41-49 | later events of an aggregate carry greater versions |
| `EpistemicHistory.ActivationRepeatsExactly` | src/intelligence_maxxxing/application/use_cases/epistemic.py:527-545 | an activation whose status and version are read at different moments commits with the version of its status read exactly when the log still has the hypothesis proposed: a second activation commits exactly when its version was read later |
| `EpistemicScenarios.SplitReadsActivateTwice` | src/intelligence_maxxxing/application/use_cases/epistemic.py:527-545 | a concrete history of that exception: two activations and two experiments of one hypothesis |
| `EpistemicRetirement.RetiredIsLeftExactly` | src/intelligence_maxxxing/application/use_cases/evaluate_experiment_v31.py:781-822 | in every run a retired hypothesis leaves RETIRED exactly by a committed evaluation of one of its experiments, and is then observing or evaluated while the log still has it retired |
| `EpistemicRetirement.RetiredExactly` | src/intelligence_maxxxing/application/use_cases/epistemic.py:784-840 | in every run the log has a hypothesis retired exactly from its first committed retirement on, and the live row exactly when, besides, each evaluation of it was followed by a rebuild or another retirement |
| `EpistemicRetirement.RetiredIsAbsorbing` | src/intelligence_maxxxing/application/use_cases/epistemic.py:784-840 | a retired hypothesis stays retired through a stretch of any run exactly when no evaluation of it that read before the stretch commits within it, so always where transactions are atomic |
| `EpistemicRetirement.AtomicRunsAgree` | src/intelligence_maxxxing/application/use_cases/epistemic_projections.py:362-381 | over atomic runs, rebuilds included, live rows and replay agree on who is retired |
| `EpistemicScenarios.RetirementCanBeUndone` | src/intelligence_maxxxing/application/use_cases/evaluate_experiment_v31.py:259-260 | a concrete run of four transactions in which that happens |
| `EpistemicService.EpistemicState.HandleBelief` | src/intelligence_maxxxing/application/use_cases/epistemic_projections.py:520-558 | the demotion loop and the new current belief |
| `EpistemicService.EpistemicState.Handle` | src/intelligence_maxxxing/application/use_cases/epistemic_projections.py:233-262 | one event applied in place; a type outside the catalog is refused |
| `EpistemicService.EpistemicState.HandleAll` | src/intelligence_maxxxing/application/use_cases/epistemic_projections.py:81-97 | the replay of a whole log, quarantined exactly when it holds an event of an unknown type |
| `EpistemicService.WriteRows` | src/intelligence_maxxxing/application/use_cases/epistemic_projections.py:264-277 | the loop that writes replayed beliefs in position order |
| `EpistemicService.EvaluateExperimentUseCase.Write` | src/intelligence_maxxxing/application/use_cases/evaluate_experiment_v31.py:244-913 | the evaluation transaction in place: lookups, decision, fingerprint replay, events, six kinds of rows; a rejected or repeated one writes nothing, a repeated one is answered with the evidence that bears the fingerprint, the belief bound to it and the progress |
| `EpistemicService.EvaluateExperimentUseCase.EvidenceByFingerprint` | src/intelligence_maxxxing/infrastructure/repositories/epistemic.py:276-292 | the lookup of the evidence that bears a fingerprint |
| `EpistemicService.EvaluateExperimentUseCase.BeliefOfEvidence` | src/intelligence_maxxxing/application/use_cases/evaluate_experiment_v31.py:448-457 | the belief of lowest position bound to the evidence, the current one only if there is none |
| `EpistemicReplies.PairedThroughout` | migrations/versions/0005_stage3_1_temporal_evidence_hardening.py:76-88 | in every run at most one evidence row bears a fingerprint, and each evidence has at most one belief |
| `EpistemicReplies.RecognisedExactly` | src/intelligence_maxxxing/application/use_cases/evaluate_experiment_v31.py:440-446 | a fingerprint is recognised exactly when a committed evaluation bore it and no rebuild, which forgets fingerprints, has come since |
| `EpistemicReplies.RepeatAnswersOriginal` | src/intelligence_maxxxing/application/use_cases/evaluate_experiment_v31.py:447-478 | until the next rebuild a repeated fingerprint is answered with the evidence row of the evaluation that first bore it, unchanged, and with its belief, current or not |
| `EpistemicService.EvaluateExperimentUseCase.CurrentBelief` | src/intelligence_maxxxing/infrastructure/repositories/epistemic.py:197-207 | the search for the current belief of a hypothesis |
| `EpistemicService.HypothesisUseCases.WriteProposal` | src/intelligence_maxxxing/application/use_cases/epistemic.py:358-448 | the proposal transaction, or the error that left the store unchanged |
| `EpistemicService.HypothesisUseCases.WriteActivation` | src/intelligence_maxxxing/application/use_cases/epistemic.py:524-724 | the activation transaction in place: status check, version, three events, three rows |
| `EpistemicService.HypothesisUseCases.WriteRetirement` | src/intelligence_maxxxing/application/use_cases/epistemic.py:780-870 | the retirement transaction in place |
| `EpistemicRecords.RefusalsExactly` | src/intelligence_maxxxing/application/use_cases/evaluate_experiment_v31.py:248-260 | activation, retirement and evaluation are refused, short of a rejected event, exactly for a row that is not the caller's, and for a status that does not allow it |
| `EpistemicRecords.ProposalRecords` | src/intelligence_maxxxing/application/use_cases/epistemic.py:358-448 | a proposal records one event under its key and stores the very row a replay of it yields |
| `EpistemicRecords.ActivationRecords` | src/intelligence_maxxxing/application/use_cases/epistemic.py:545-625 | an activation records three events with their payloads, only the first under its key, at the versions its aggregates are due |
| `EpistemicRecords.ActivationAgrees` | src/intelligence_maxxxing/application/use_cases/epistemic_projections.py:344-443 | the rows an activation stores are the replayed ones but for the anchor, the two statuses and the distance to the target |
| `EpistemicRecords.RetirementRecords` | src/intelligence_maxxxing/application/use_cases/epistemic.py:780-870 | a retirement records one event and turns the row it read into a retired one, its terms unchanged |
| `EpistemicRecords.EvaluationRecords` | src/intelligence_maxxxing/application/use_cases/evaluate_experiment_v31.py:486-650 | an evaluation records evidence under its key and a belief, created or updated as it read none or one; a terminal one also outcome and learning |
| `EpistemicRecords.EvaluationStores` | src/intelligence_maxxxing/application/use_cases/evaluate_experiment_v31.py:662-779 | the evidence, belief and learning rows stored: counts of the phase, links, and confidences by 14 and 30 observations and by the state |
| `EpistemicRecords.EvaluationSettles` | src/intelligence_maxxxing/application/use_cases/evaluate_experiment_v31.py:781-889 | experiment and progress carry the status of the state stored, the hypothesis is EVALUATED exactly if that state ends the experiment, and the progress has both cohorts, the whole days left and what is missing to the target |
| `EpistemicRecords.EvidenceAgreesThroughout` | src/intelligence_maxxxing/application/use_cases/epistemic_projections.py:445-484 | in every run live and replayed evidence are the same rows but for fingerprint and terminal flag |
| `EpistemicRecords.ProgressAgreesExactly` | src/intelligence_maxxxing/application/use_cases/epistemic_projections.py:485-512 | after an evaluation live and replayed progress agree on the counts of its phase exactly when its cohort is all the eligible rows |
| `EpistemicRecords.HandledExactly` | src/intelligence_maxxxing/application/use_cases/epistemic_projections.py:233-262 | replay refuses exactly the types outside the catalog and the epistemic events whose payload does not fit |
| `EpistemicRecords.ClosingReplay` | src/intelligence_maxxxing/application/use_cases/epistemic_projections.py:590-618 | replayed closing events settle the status of experiment and progress, a completion also the state |
| `Assessing.AssessmentConserves` | src/intelligence_maxxxing/application/use_cases/evaluate_experiment_v31.py:301-322 | the counts an evaluation stores add up to the rows it scanned |
| `Assessing.TerminalFromRows` | src/intelligence_maxxxing/application/use_cases/evaluate_experiment_v31.py:271-407 | from the tables to the end: a prospective evaluation is terminal exactly when its window is over, or its rows are sound and its cohort has reached the target and both group minima; each reason has its exact condition |
| `Assessing.SupportFromRows` | src/intelligence_maxxxing/domain_packs/life/methods/bayesian_bootstrap.py:141-156 | from the tables to support: PROSPECTIVE_SUPPORTED is stored exactly by a prospective evaluation of sound rows with target and group minima reached and the required probability and interval |
| `Assessing.BaselineFromRows` | src/intelligence_maxxxing/domain_packs/life/methods/bayesian_bootstrap.py:122-131 | from the tables to each baseline state: insufficient below 14 members or 5 in a group, otherwise the side that gets at least 80 percent, or neither; never the end of the experiment |
| `Assessing.ProspectiveFromRows` | src/intelligence_maxxxing/domain_packs/life/methods/bayesian_bootstrap.py:134-159 | from the tables to each prospective state: support, weakening or neither where the rows are sound and target and minima are reached; otherwise expired once the window is over and collecting before that |
| `Assessing.CohortsFromRows` | src/intelligence_maxxxing/application/use_cases/evaluate_experiment_v31.py:284-316 | which kept rows make up the baseline and the prospective cohort of an experiment, in its own cutoffs, positions and times |
| `Assessing.GroupsFromRows` | src/intelligence_maxxxing/application/use_cases/evaluate_experiment_v31.py:316-319 | the two groups of a phase are its cohort members at or above the threshold and those below, in position order, one a source |
| `Assessing.AssessmentFromRows` | src/intelligence_maxxxing/application/use_cases/evaluate_experiment_v31.py:271-438 | the counts, flag, estimate, learning text and fingerprint text an evaluation takes from the tables |
| `Assessing.MovedAnchorKeepsAssessment` | src/intelligence_maxxxing/application/use_cases/epistemic_projections.py:411-416 | the anchor moved to the registration by a rebuild changes no assessment, as no observation sits at the two positions |
| `Assessing.TerminalUntilContradiction` | src/intelligence_maxxxing/application/use_cases/evaluate_experiment_v31.py:366-407 | after a terminal evaluation a later one over the grown table is terminal again, except exactly when two admissible rows contradict each other by then and the window is still open |
| `Assessing.ReachedStays` | src/intelligence_maxxxing/domain_packs/life/methods/bayesian_bootstrap.py:141-146 | target and group minima once reached stay reached, and soundness once lost stays lost |
| `Assessing.FingerprintRepeatsExactly` | src/intelligence_maxxxing/application/use_cases/evaluate_experiment_v31.py:427-438 | for clean names two evaluations of one experiment and phase share a fingerprint exactly when cutoff and set of source events are the same |
| `Eligibility.SelectEligible` | src/intelligence_maxxxing/domain_packs/life/eligibility.py:84-183 | the pass over the sorted rows with its map of first rows |
| `Eligibility.SplitByTemporalAnchors` | src/intelligence_maxxxing/domain_packs/life/eligibility.py:186-243 | the cohort loop |
| `CohortTheorems.AdmittedExactly` | src/intelligence_maxxxing/domain_packs/life/eligibility.py:103-167 | a row is admitted exactly as a timed, well-sourced daily check-in of the scope with both measures in range, and is then observed with its own ids, position and times, its first well-formed source, the sleep and the productivity of its attributes, and the mapping version of metadata first and attributes second |
| `CohortReasons.ReasonsExactly` | src/intelligence_maxxxing/domain_packs/life/eligibility.py:103-150 | each screening reason is given exactly when every earlier check passes and its own fails |
| `CohortReasons.ReasonsCounted` | src/intelligence_maxxxing/domain_packs/life/eligibility.py:84-183 | the histogram of a selection counts for each reason exactly the rows it was given to, the two duplicate reasons included |
| `CohortReasons.PlacementsExactly` | src/intelligence_maxxxing/domain_packs/life/eligibility.py:209-243 | both cohorts and each reason of the split have their exact condition in times and positions |
| `CohortReasons.LeftOutCounted` | src/intelligence_maxxxing/domain_packs/life/eligibility.py:186-243 | the histogram of the split counts for each reason the observations it left out |
| `CohortReasons.SourceIdExactly` | src/intelligence_maxxxing/domain_packs/life/eligibility.py:28 | a source id is the prefix and a non-empty name of letters, digits, underscores and hyphens, and possibly one line break |
| `EligibilityTheorems.SelectionIsOrderIndependent` | src/intelligence_maxxxing/domain_packs/life/eligibility.py:100-103 | any permutation of the rows gives the same eligible list, exclusion counts and flag |
| `EligibilityTheorems.LowestPositionWins` | src/intelligence_maxxxing/domain_packs/life/eligibility.py:169-182 | each source keeps its admitted row of lowest position and id, and a source without admitted rows keeps none |
| `EligibilityTheorems.KeptIsOrdered` | src/intelligence_maxxxing/domain_packs/life/eligibility.py:182-183 | the kept rows are of different sources and already in position order |
| `EligibilityTheorems.CriticalExactly` | src/intelligence_maxxxing/domain_packs/life/eligibility.py:174-177 | the data-quality flag is raised exactly when two admissible rows of one source differ in sleep, productivity, time or mapping version |
| `CohortTheorems.Conservation` | src/intelligence_maxxxing/application/use_cases/evaluate_experiment_v31.py:301-319 | scanned rows are baseline plus prospective plus the recorded exclusions, the merged histogram sums to them, and both exposure groups add up to each cohort |
| `CohortTheorems.CohortsUnderGrowth` | src/intelligence_maxxxing/application/use_cases/evaluate_experiment_v31.py:262-300 | over a growing log with clock and cutoff not going back: same baseline, earlier prospective contained in later, no shared observation, distance to the target never growing |
| `CohortChanges.DatingKeepsSelectionExactly` | src/intelligence_maxxxing/application/use_cases/projections.py:403 | giving every row its event time, as a rebuild does, leaves the selection as it was exactly when no row was excluded for lacking a time |
| `CohortChanges.DatingKeepsEligibleExactly` | src/intelligence_maxxxing/application/use_cases/projections.py:403 | ... and leaves the eligible rows as they were exactly when each row thereby admitted comes after an admitted row of its source |
| `CohortChanges.RebuildCanChangeCohorts` | src/intelligence_maxxxing/application/use_cases/projections.py:403 | a concrete check-in that becomes eligible that way |
| `CohortChanges.MovedAnchorKeepsCohorts` | src/intelligence_maxxxing/domain_packs/life/eligibility.py:209-243 | an anchor moved by one position keeps both cohorts and every exclusion reason when no observation sits at either position |
| `CohortTheorems.LineBreakPasses` | src/intelligence_maxxxing/domain_packs/life/eligibility.py:28 | one trailing line break passes the source format check, two do not |
| `ObservationScan.ScanAllLifeObservations` | src/intelligence_maxxxing/domain_packs/life/observation_scan.py:12-47 | the paging loop ends and returns every life row of the scope up to the cutoff, once each, in position order |
| `ObservationScan.FollowingListsAll` | src/intelligence_maxxxing/application/use_cases/read_observations.py:54-74 | following the cursor from page to page lists exactly the rows of the query |
| `ObservationScan.CursorContinues` | src/intelligence_maxxxing/infrastructure/repositories/projections.py:86-90 | a query continued from the position of a row selects exactly the rows after it |
| `ObservationScan.ScanGrows` | src/intelligence_maxxxing/domain_packs/life/observation_scan.py:40-43 | over a table grown past the first cutoff, the first scan is the start of the second |
| `ObservationScan.ScannedExactly` | src/intelligence_maxxxing/domain_packs/life/observation_scan.py:12-47 | the scan holds exactly the rows of the scope in the life pack up to the cutoff, in position order |
| `ObservationScan.ListedExactly` | src/intelligence_maxxxing/infrastructure/repositories/projections.py:62-95 | a listing holds exactly the rows that meet every filter given, in position order |
| `ObservationScan.PagedExactly` | src/intelligence_maxxxing/application/use_cases/read_observations.py:54-74 | a page is the listing up to its limit, and comes with the position of its last row exactly if it is full |
| `ObservationScan.EvaluationsUnderGrowth` | src/intelligence_maxxxing/application/use_cases/evaluate_experiment_v31.py:262-300 | the growth property from the tables themselves, through scan, selection and split |
| `Fingerprint.OrderAndRepetitionIgnored` | src/intelligence_maxxxing/domain_packs/life/evidence_fingerprint.py:27-48 | the hashed texts depend on the set of source events only |
| `Fingerprint.MaterialSpelled` | src/intelligence_maxxxing/domain_packs/life/evidence_fingerprint.py:27-42 | the hashed text spelled out: the ten inputs in their order, one on each line, the events on one line |
| `Fingerprint.DecimalIsTheNumber` | src/intelligence_maxxxing/domain_packs/life/evidence_fingerprint.py:27-42 | the cutoff is written in decimal digits without leading zeros |
| `Fingerprint.MaterialDetermines` | src/intelligence_maxxxing/domain_packs/life/evidence_fingerprint.py:27-42 | for fields without line breaks and non-empty ids without commas or line breaks, the hashed text determines all ten inputs, the ids as a set |
| `Fingerprint.SourceMaterialDetermines` | src/intelligence_maxxxing/domain_packs/life/evidence_fingerprint.py:45-48 | the source hash determines the set of non-empty ids without line breaks |
| `Fingerprint.LineBreaksCollide` | src/intelligence_maxxxing/domain_packs/life/evidence_fingerprint.py:28-41 | a line break moves between fields unseen |
| `Fingerprint.EmptyIdsAndCommasCollide` | src/intelligence_maxxxing/domain_packs/life/evidence_fingerprint.py:27-37 | an empty id counts for none, a comma makes one id of two |
| `Wellbeing.IncludedExactly` | src/intelligence_maxxxing/domain_packs/life/input_selection.py:99-166 | which rows may feed a personal score, as one condition |
| `Wellbeing.DecisionsExactly` | src/intelligence_maxxxing/domain_packs/life/input_selection.py:99-166 | each of the seven decisions has its exact condition |
| `Wellbeing.SelectEffective` | src/intelligence_maxxxing/domain_packs/life/input_selection.py:169-188 | the selection loop and its decisions |
| `Wellbeing.ExtractCheckInDays` | src/intelligence_maxxxing/domain_packs/life/wellbeing_v1.py:112-196 | the extraction loop and its ascending list of days |
| `Wellbeing.ExcludedRowsDoNotMatter` | src/intelligence_maxxxing/domain_packs/life/wellbeing_v1.py:120-126 | rows not included, put in or taken out anywhere, leave the extracted days unchanged |
| `Wellbeing.ExtractionIsOrderIndependent` | src/intelligence_maxxxing/domain_packs/life/wellbeing_v1.py:130-133 | the extracted days do not depend on the order of the rows |
| `Wellbeing.LatestCheckInWins` | src/intelligence_maxxxing/domain_packs/life/wellbeing_v1.py:174-196 | each calendar day of 86 400 seconds from the epoch is read from its included check-in of greatest position, with that row's position and scores, and a day without one is absent |
| `Wellbeing.DifferentDaysAreKept` | src/intelligence_maxxxing/domain_packs/life/wellbeing_v1.py:142-196 | included check-ins of different calendar days are extracted under different days |
| `Wellbeing.WindowAddsUp` | src/intelligence_maxxxing/domain_packs/life/wellbeing_v1.py:234-239 | sample and missing days add up to the window exactly when no day in it occurs twice |
| `Wellbeing.ExtractedWindowAddsUp` | src/intelligence_maxxxing/domain_packs/life/wellbeing_v1.py:234-239 | for extracted days they always add up |
| `Wellbeing.WindowExactly` | src/intelligence_maxxxing/domain_packs/life/wellbeing_v1.py:234-239 | the sample counts the readings of the last n days up to the date, the missing ones those days without a reading |

## Left out

- Quarantine of the system stream: no claim beyond `VerifyCommitsExactly`; the kill-switch theorems are about the other streams.
- The audits, the health snapshot and the alert hook of the integrity service: not modelled.
- Events without a global position, and rows with two events at one position: the database assigns distinct positions.
- Positions assigned but committed out of order: the log grows in position order, gaps allowed.
- Read limits other than the one of the observation rebuild: the epistemic replay reads the whole log.
- ORM session behaviour (identity map, autoflush, deleting and re-reading a row in one session, the statement at which a duplicate fingerprint surfaces): each transaction reads and writes plain tables.
- The crash of a client between its commit and its reply: a committed write is reported to its client.
- Validation by pydantic (lengths, patterns, knowledge classes), the refusal of test purposes on production contexts, and JSON and SHA-256 internals.
- `append_batch`, stream inspection, governance and identity events, and their use cases: easy members.
- Idempotency records of propose, activate, evaluate and retire: their protocol is the one proved for submissions; the loop models the transaction behind it, with the event key.
- Evaluate: cohort, fingerprint, posterior and classifier output are arbitrary inputs of the transaction, so its theorems hold whatever they are; `Assessing` computes them from the tables, with the posterior sampling as an arbitrary function.
- Evaluate: the evidence row keeps the columns replay reads plus fingerprint and terminal flag; source lists, statistics, diagnostics, limitations and constant columns are not modelled, nor are the exclusion counters of the progress row.
- Evaluate: a fingerprint that a concurrent evaluation takes first is answered with that evidence and whichever belief is then current; the in-place transaction has no such race, and its theorems about replies are about the lookup.
- Epistemic events carry the clock of their transaction as recorded time, where the code reads the clock again for each event; no handler reads it and no theorem here states it.
- Learning and outcome texts, agreement labels, confounding diagnostics: one abstract text.
- Live hypothesis, experiment, evidence and progress rows against replayed ones in full: they differ by design (status, evaluation columns, anchors); what agrees is stated.
- Parsing of provenance tags, score extraction and the exclusion registry: parameters of the wellbeing policy. The text-to-float conversion is a parameter of selection.
- Wellbeing scores, baselines, warnings and actions; the second wellbeing version; trading and other packs.
- A conversion to float that overflows, and times that are not UTC.
- The scan reads one state of the table; pages read from a table that changes in between are not modelled.
- HTTP routes, SDK, CLI, migrations, settings, logging.
