# Verification of the release and data tooling

A Dafny 4.11 model of the crash-safe file protocols, ordered ledgers and order-insensitive merges of
this repository, with proofs of what they promise. `dafny verify dfyconfig.toml` checks everything.

| modules | component |
|---|---|
| `F02Transfer`, `F02DockerAdapter` | the resumable host transfer of an F02 capsule and its pending-helper protocol |
| `RunnerLedgerBuild`, `RunnerLedgerMerge`, `RunnerCoverage` | building, merging and covering stable-ID runner ledgers |
| `RunnerOccurrences`, `RunnerLedgerLaws`, `RunnerLineage`, `RunnerRawIds` | the laws of the merge, the three steps together, and where they fail to fit |
| `Release0079` | the 0079 release coordinator |
| `OfficialResults` | the checkpointed collector with its write-ahead request budget |
| `ParticipantBatches`, `ParticipantLedger`, `ParticipantExecution` | the participant batch plan, its execution ledger, and both together |
| `ReviewedBackfill` | renumbering results in place under a uniqueness constraint |
| `RollbackReceipt` | completing a rollback receipt by link, check and unlink |
| `HtmlRedactor`, `BulkPartitions`, `TrustedBundle`, `RollbackEnv` | the redactor, the rolling query window, the dependency closure, the environment file |
| `Wrappers`, `Alphabets`, `TextOrder`, `CanonicalText` | results, character classes, Python's string order, canonical JSON texts and whitespace |

How the models are built:

- Durable state is the fields of a class. A method is one call; a parameter (`crashAt`, `left`, `crash`)
  says in front of which durable effect it ends. A check of the outside world that fails ends a call in
  the same way as a crash, so every failure is covered by some value of that parameter.
- Replies of Docker, providers, containers and files are parameters, and every contract holds for all of
  them. Atomic file replacement is one assignment. SHA-256 of canonical JSON is an injective function:
  either the value stands for its digest, or digests are uninterpreted functions.
- Protocols that several calls or processes share carry a ghost history. A small automaton says which
  histories are legal, the methods keep the history legal and the state in step with it, and the lemmas
  about legal histories then hold for every run.
- Loops are proved against specification functions, about which the laws are proved separately. What an
  operation answers is stated a second time in terms of its inputs and results alone (`Mergeable`,
  `LedgerOf`, `Audited`, `Answers`, `Answered`, `Witnessed`, `Written`, `Queries`), and both statements are
  proved to agree.

Where the code does not meet what one would expect of it, the model keeps the code and the exact
condition is proved:

- The coverage audit compares raw horse ids, the builder normalised ones (compatibility composition,
  then single spaces). Build, merge and cover compose if and only if every raw id is its own normal form
  (`RunnerLineage.CoverageIff`). The ids `" hrs_1"` and `hrs_` with a full-width 1 are built and merged
  but refused by the audit (`RunnerRawIds.PaddedIdIsRefused`, `FullWidthIdIsRefused`).
- The daily ranges of a year fail on 31 December 9999, because the cursor is moved past the last date,
  and the window has no start in year 1 (`BulkPartitions.BuildReadiness`).
- Of the reports of a receipt completion exactly `completed` promises that the completion survives:
  `already-completed` is also printed while the unlink of another process is not synced yet, and a power
  loss then brings the active name back (`RollbackReceipt.OnlyOwnCompletionIsDurable`).
- A manifest at its exact request budget cannot survive a single temporary failure: the next exhausted
  race is settled as a deterministic error (`OfficialResults.Collector.RetryNeedsSlack`).
- A release can be interrupted anywhere and resumed, unless the first call that gets anything done ends
  between its backup and its manifest: then, and only then, every resume is refused until an operator
  reconciles it (`Release0079.Coordinator.ReleaseDespiteInterruptions`, `StrandedByBackup`).

## Model

| member | source | states |
|---|---|---|
| F02Transfer.HostStore.Transfer | scripts/f02_transfer.py:409-534 | one call: what it may have done, crashed anywhere; what a copy and a promotion need to be justified by (the capsule's own identity and uid from both probes); and for an uncrashed call on any reachable state every answer, whether it copied, whether the attempt is invalid for good, and the package it leaves |
| F02Transfer.SettledAnswers | scripts/f02_transfer.py:370-373 | the answers of a call spelled out by replies, deadlines, free bytes and verification, without the decision functions |
| F02Transfer.InspectionAccepts | scripts/f02_transfer.py:548-570 | inspection accepts a store, whoever wrote it, exactly if receipt, commitment and package agree |
| F02Transfer.ValidNameMeans | scripts/f02_transfer.py:26 | which attempt names are valid, by character |
| F02Transfer.HostStore.TransferBound | scripts/f02_transfer.py:409-509 | the same after the capsule binding: an existing package is resumed, otherwise one is looked for |
| F02Transfer.HostStore.FindPackage | scripts/f02_transfer.py:435-509 | an invalid attempt is never bypassed; otherwise the only attempt is worked on |
| F02Transfer.HostStore.OpenAttempt | scripts/f02_transfer.py:435-444 | the one existing attempt is reused, a fresh one is made only when there is none, anything else is refused |
| F02Transfer.HostStore.ResumeFinal | scripts/f02_transfer.py:419-434 | a promoted package without receipt is finished only for the one committed, valid attempt and only after it verified again |
| F02Transfer.HostStore.CollectValid | scripts/f02_transfer.py:421-430 | the loop finds exactly the committed attempts without an invalid mark; with a promoted package there is exactly one |
| F02Transfer.HostStore.Finish | scripts/f02_transfer.py:390-406 | an existing receipt is never replaced; it has to agree with the package just verified, otherwise a new one names attempt and summary |
| F02Transfer.HostStore.WorkOnAttempt | scripts/f02_transfer.py:450-509 | commitments are only added, a copy starts only under the conditions of the decision table, a package is promoted only after it verified |
| F02Transfer.HostStore.CommitAndCopy | scripts/f02_transfer.py:479-484 | the commitment is durable before the stage exists and both before the copy starts |
| F02Transfer.HostStore.JudgeCopy | scripts/f02_transfer.py:485-501 | exactly which replies refuse the copied package and which of them mark the attempt invalid for good |
| F02Transfer.HostStore.CopyIntoStage | scripts/f02_transfer.py:479-501 | commit, copy and judgement together: at most one more copy, and success only with a verified stage |
| F02Transfer.HostStore.Promote | scripts/f02_transfer.py:502-509 | the stage becomes the final package unchanged, and a receipt exists only beside it |
| F02Transfer.HostStore.TransferAndInspect | scripts/f02_transfer.py:409-570 | on any reachable state: what a call reports as verified the following inspection accepts, and for a promoted package one uncrashed call that meets its deadlines does report it and leaves the package as it is |
| F02Transfer.HostStore.RecordDelivery | scripts/f02_transfer.py:573-607 | a delivery is recorded only for a store that inspection accepts, and never replaced |
| F02Transfer.CallKeepsInv | scripts/f02_transfer.py:409-509 | every call effect keeps the invariant of the store |
| F02Transfer.EventKeepsInv | scripts/f02_transfer.py:409-607 | calls, deliveries and writes of an orphaned copy into its stage between calls keep the invariant, and nothing durable is taken back |
| F02Transfer.RunKeepsInv | scripts/f02_transfer.py:409-607 | the invariant holds in every state of every run |
| F02Transfer.RunGrows | scripts/f02_transfer.py:409-607 | package, receipt and delivery never change over a run once they exist |
| F02Transfer.AtMostOneCopyEver | scripts/f02_transfer.py:435-484 | over any run, with any attempt ids and crashes anywhere, the adapter copies at most once and at most one attempt directory ever exists |
| F02Transfer.PromotionIsSafe | scripts/f02_transfer.py:390-434 | a promoted package verified and stems from the committed, valid, unique attempt; a receipt describes exactly it; neither ever changes |
| F02Transfer.PromotedIsRecoverable | scripts/f02_transfer.py:419-434 | in any reachable state with a promoted package the decision table says host_verified, and inspection accepts exactly when the receipt exists |
| F02Transfer.NoSecondChance | scripts/f02_transfer.py:469-474 | after a copy was started no later call starts one |
| F02DockerAdapter.DockerAdapter.LoadPending | scripts/f02_docker_adapter.py:162-170 | the cached field follows the file; a record of another binding is refused |
| F02DockerAdapter.DockerAdapter.RecoverHelper | scripts/f02_docker_adapter.py:198-218 | exactly when a pending helper counts as stopped, and when the quarantine mark is left instead |
| F02DockerAdapter.DockerAdapter.Acknowledge | scripts/f02_docker_adapter.py:177-182 | a stop is recorded only on a reply that proves it, and the pending record goes away only afterwards |
| F02DockerAdapter.DockerAdapter.Probe | scripts/f02_docker_adapter.py:220-282 | exactly when an uncrashed probe gives each of its seven answers, in terms of the replies alone, and what it leaves as pending record and quarantine mark |
| F02DockerAdapter.OutcomeAnswers | scripts/f02_docker_adapter.py:220-266 | the answer and the state left by a probe, each as an if-and-only-if over the replies |
| F02DockerAdapter.DockerAdapter.StartProbe | scripts/f02_docker_adapter.py:243-266 | the operation id is durable before the helper starts, and every way the helper can end is settled or left pending |
| F02DockerAdapter.DockerAdapter.Copy | scripts/f02_docker_adapter.py:268-287 | a copy starts exactly when nothing is pending, nothing is quarantined and the destination is empty |
| F02DockerAdapter.RunSchedule | scripts/f02_docker_adapter.py:162-287 | any schedule of probes and copies by any instances, crashes included, leaves a legal history |
| F02DockerAdapter.PrefixLegal | scripts/f02_docker_adapter.py:220-287 | every earlier moment of a legal history was legal |
| F02DockerAdapter.ResolvedWasStopped | scripts/f02_docker_adapter.py:172-218 | a saved operation that is no longer the unresolved one was acknowledged as stopped, on a reply that proves it |
| F02DockerAdapter.QuietBeforeCopy | scripts/f02_docker_adapter.py:268-277 | before a copy, and before another save, every operation ever saved was acknowledged as stopped on a reply that proves it: at most one is unresolved |
| F02DockerAdapter.SavedBeforeProbe | scripts/f02_docker_adapter.py:243-245 | no probe helper starts whose operation id was not saved before |
| F02DockerAdapter.NothingStartsInQuarantine | scripts/f02_docker_adapter.py:220-222 | after the quarantine mark neither helper nor copy starts |
| RunnerOccurrences.ObservationTextInjective | runtime/research/merge_target_runner_stable_id_ledgers.py:74-88 | the canonical text of an observation identifies it |
| RunnerOccurrences.OrderIsIrrelevant | runtime/research/merge_target_runner_stable_id_ledgers.py:104-130 | whether occurrences of one horse and race merge, and to what, does not depend on their order |
| RunnerOccurrences.CombineIsAssociative | runtime/research/merge_target_runner_stable_id_ledgers.py:104-130 | merging an already merged occurrence with more equals merging all at once, in success and in result |
| RunnerOccurrences.CollectedIsListing | runtime/research/merge_target_runner_stable_id_ledgers.py:109-116 | the dictionary and sort of a merge step list exactly the union of the observations in canonical order |
| RunnerOccurrences.MergeObservedIsCombine | runtime/research/merge_target_runner_stable_id_ledgers.py:104-130 | one merge step succeeds exactly if the enlarged group is consistent and then gives its combination, with the least observation as primary |
| RunnerLedgerMerge.KeysAreInjective | runtime/research/merge_target_runner_stable_id_ledgers.py:152-158 | equal occurrence keys mean the same race and, for legacy rows, the same seed |
| RunnerLedgerMerge.FileUnder | runtime/research/merge_target_runner_stable_id_ledgers.py:257-276 | what is filed after an earlier occurrence under the same key, and when that is refused |
| RunnerLedgerMerge.AddOccurrence | runtime/research/merge_target_runner_stable_id_ledgers.py:240-276 | an occurrence is accepted exactly if all occurrences so far stay consistent, and the tables follow |
| RunnerLedgerMerge.AddOccurrences | runtime/research/merge_target_runner_stable_id_ledgers.py:240-276 | the loop over one row's occurrences |
| RunnerLedgerMerge.AddRow | runtime/research/merge_target_runner_stable_id_ledgers.py:215-276 | one ledger row: accepted exactly if valid and consistent, and the horse's entry is that of all rows read |
| RunnerLedgerMerge.AddSource | runtime/research/merge_target_runner_stable_id_ledgers.py:215-276 | the loop over one ledger |
| RunnerLedgerMerge.SortStrings | runtime/research/merge_target_runner_stable_id_ledgers.py:278-294 | sorting a set by code points |
| RunnerLedgerMerge.EmitEntry | runtime/research/merge_target_runner_stable_id_ledgers.py:279-298 | one emitted row: names, batches and occurrence keys ascending |
| RunnerLedgerMerge.EmitSeeds | runtime/research/merge_target_runner_stable_id_ledgers.py:277-299 | the emitted ledger with its horses ascending |
| RunnerLedgerMerge.Merge | runtime/research/merge_target_runner_stable_id_ledgers.py:177-299 | the merge succeeds exactly for two or more different ledgers of valid, documented rows that agree wherever they meet, and then holds every horse, every stripped name, every batch and for every place of a horse one summary of all its observations, and nothing else |
| RunnerLedgerMerge.MergeableMeans | runtime/research/merge_target_runner_stable_id_ledgers.py:133-276 | which sources are merged, in terms of their rows and occurrences alone |
| RunnerLedgerMerge.DocumentedIsOk | runtime/research/merge_target_runner_stable_id_ledgers.py:133-174 | which occurrences are valid: identified, named, placed, seen, without repeated observations and headed by the first one |
| RunnerLedgerMerge.GroupsAgree | runtime/research/merge_target_runner_stable_id_ledgers.py:104-130 | occurrences at one place can be merged exactly if any two of them agree |
| RunnerLedgerMerge.EmittedHorses | runtime/research/merge_target_runner_stable_id_ledgers.py:277-299 | every horse of the sources has one row, in ascending order |
| RunnerLedgerMerge.EmittedNames | runtime/research/merge_target_runner_stable_id_ledgers.py:236-238 | a string is a name of an emitted row exactly if it is a source name of that horse, stripped and not empty; the same for its batches |
| RunnerLedgerMerge.EmittedOccurrences | runtime/research/merge_target_runner_stable_id_ledgers.py:240-276 | every place of a horse in the sources has exactly one emitted occurrence, with their common facts, all their observations and the first of them as primary |
| RunnerLedgerMerge.IdsMean | runtime/research/merge_target_runner_stable_id_ledgers.py:133-151 | which horse and race ids are valid, by character |
| RunnerLedgerLaws.MergeIsConfluent | runtime/research/merge_target_runner_stable_id_ledgers.py:199-299 | rows with the same evidence are accepted or refused together and give the same ledger |
| RunnerLedgerLaws.RowOrderIsIrrelevant | runtime/research/merge_target_runner_stable_id_ledgers.py:215-276 | permuting rows leaves the evidence the same |
| RunnerLedgerLaws.OccurrenceOrderIsIrrelevant | runtime/research/merge_target_runner_stable_id_ledgers.py:235-276 | permuting names and occurrences inside rows leaves the evidence the same |
| RunnerLedgerLaws.SourceOrderIsIrrelevant | runtime/research/merge_target_runner_stable_id_ledgers.py:202-214 | permuting source ledgers changes neither whether the merge runs nor the evidence |
| RunnerLedgerLaws.CombinedIsValid | runtime/research/merge_target_runner_stable_id_ledgers.py:133-174 | a merged occurrence passes the occurrence checks and keeps its key and race identity |
| RunnerLedgerLaws.EmittedSummarises | runtime/research/merge_target_runner_stable_id_ledgers.py:277-299 | the emitted ledger holds exactly one combined occurrence for every horse and key |
| RunnerLedgerLaws.EmittedRowIsOk | runtime/research/merge_target_runner_stable_id_ledgers.py:216-239 | an emitted row satisfies everything the merge asks of a source row |
| RunnerLedgerLaws.MergeIsAssociative | runtime/research/merge_target_runner_stable_id_ledgers.py:199-299 | merging a merged ledger with further rows accepts the same and gives the same as merging all rows at once |
| RunnerLedgerLaws.MergedIsStable | runtime/research/merge_target_runner_stable_id_ledgers.py:199-299 | a merged ledger is accepted again and merges to itself |
| RunnerLedgerLaws.ObservationsAreConserved | runtime/research/merge_target_runner_stable_id_ledgers.py:104-130 | the set of horse, race and observation facts is the same before and after the merge |
| RunnerLedgerBuild.FileSighting | runtime/research/build_target_runner_stable_id_ledger.py:175-198 | filing a starter's occurrence succeeds exactly if the group stays consistent, and gives its combination |
| RunnerLedgerBuild.AddStarter | runtime/research/build_target_runner_stable_id_ledger.py:397-417 | a starter is filed under its horse exactly if all sightings stay consistent |
| RunnerLedgerBuild.AddRace | runtime/research/build_target_runner_stable_id_ledger.py:381-417 | a race is accepted exactly if its starters are actual, valid and different and everything stays consistent |
| RunnerLedgerBuild.HashesSnoc | runtime/research/build_target_runner_stable_id_ledger.py:376-380 | a race payload that contradicts an earlier one is found by its hash |
| RunnerLedgerBuild.Build | runtime/research/build_target_runner_stable_id_ledger.py:353-435 | exactly which batches have a ledger, and for those: every starter is told of once under its cleaned id and race, with payload, target, name, position and observation as the provider gave them, and nothing else is told |
| RunnerLedgerBuild.BuildOkMeans | runtime/research/build_target_runner_stable_id_ledger.py:353-417 | the batches that have a ledger, in terms of races and starters alone |
| RunnerLedgerBuild.LedgerIsTold | runtime/research/build_target_runner_stable_id_ledger.py:231-257 | what the rows of a ledger say of each starter, and that every occurrence, observation and name comes from one |
| RunnerLedgerBuild.StoriesAgree | runtime/research/build_target_runner_stable_id_ledger.py:175-198 | the starters of a batch can be filed together exactly if the provider says the same wherever horse and race are the same |
| RunnerCoverage.IndexRow | runtime/research/build_stable_id_reconciliation_coverage.py:149-173 | one row of a ledger is indexed exactly if its occurrences are complete and at new places |
| RunnerCoverage.PhysicalTable | runtime/research/build_stable_id_reconciliation_coverage.py:149-173 | a ledger is indexed by horse and race exactly if no place is doubly filled and every occurrence is observed |
| RunnerCoverage.StableOccurrences | runtime/research/build_stable_id_reconciliation_coverage.py:68-96 | the occurrences of a ledger, exactly if each has a complete identity of its own |
| RunnerCoverage.MergedPhysical | runtime/research/build_stable_id_reconciliation_coverage.py:599-609 | the merged occurrences that list observations, by horse and race |
| RunnerCoverage.AddExpected | runtime/research/build_stable_id_reconciliation_coverage.py:640-657 | an expected occurrence is filed under the raw horse id |
| RunnerCoverage.ExpectRace | runtime/research/build_stable_id_reconciliation_coverage.py:626-665 | the expected occurrences of one race |
| RunnerCoverage.Expected | runtime/research/build_stable_id_reconciliation_coverage.py:610-665 | what a materialisation should have put into its ledger, and exactly when that is defined |
| RunnerCoverage.BindRows | runtime/research/build_stable_id_reconciliation_coverage.py:666-726 | every expected occurrence is covered exactly if rows result, which then name the owned ones once each |
| RunnerCoverage.BindOwned | runtime/research/build_stable_id_reconciliation_coverage.py:666-732 | the rows of a component: exactly when it covers its source ledger, and which occurrences they name |
| RunnerCoverage.CoverComponent | runtime/research/build_stable_id_reconciliation_coverage.py:539-744 | exactly when a component passes and which ledger occurrences its rows name |
| RunnerCoverage.CoverAll | runtime/research/build_stable_id_reconciliation_coverage.py:866-883 | all components pass, and their rows are free of duplicates exactly if no two own the same occurrence |
| RunnerCoverage.HaveDistinctShas | runtime/research/build_stable_id_reconciliation_coverage.py:893-904 | no component is given twice |
| RunnerCoverage.BuildCoverage | runtime/research/build_stable_id_reconciliation_coverage.py:782-904 | exactly when the audit accepts; then every starter of every component is told of in the component's own ledger, where nothing else is, and in the merged one, and every merged occurrence has a primary observation that exactly one component made; any difference is refused |
| RunnerCoverage.CoverageIsAudited | runtime/research/build_stable_id_reconciliation_coverage.py:666-726 | what an accepted audit means in terms of races, starters and ledger rows alone, and that no ledger may differ from what the provider said of a starter |
| RunnerCoverage.AuditedIsSourced | runtime/research/build_stable_id_reconciliation_coverage.py:99-132 | in an accepted audit every occurrence of every ledger lists complete and different observations headed by its own, and no horse is told of twice in one race |
| RunnerCoverage.CellsAreOwned | runtime/research/build_stable_id_reconciliation_coverage.py:693-697 | every occurrence of an accepted merged ledger lists observations, and exactly one component made the first |
| RunnerLineage.BuiltTable | runtime/research/build_target_runner_stable_id_ledger.py:370-417 | a built ledger holds at every place exactly the occurrence expected there |
| RunnerLineage.MergedIsCoverable | runtime/research/build_stable_id_reconciliation_coverage.py:82-173 | a merged ledger of provider occurrences passes all checks on the ledger itself |
| RunnerLineage.MadeIsMerged | runtime/research/build_stable_id_reconciliation_coverage.py:669-692 | every occurrence that a batch made is found in the merged ledger with the same facts and at least its observations |
| RunnerLineage.HorseIdIsNormal | runtime/research/racing_api_horse_export.py:501-502 | a valid horse id is its own normal form |
| CanonicalText.NormalizeKeepsWords | runtime/research/racing_api_horse_export.py:501-502 | normalising whitespace keeps the words and leaves single blanks between them and nothing else |
| CanonicalText.StripMeans | runtime/research/merge_target_runner_stable_id_ledgers.py:236-238 | stripping takes exactly the whitespace off both ends |
| CanonicalText.EscapeReadsBack | runtime/research/prepare_held_winner_seed_extension.py:34-35 | a JSON reader gets a quoted string back |
| RunnerLineage.RawIdIsMissed | runtime/research/build_stable_id_reconciliation_coverage.py:640-647 | a horse id that is not its own normal form is expected at a place that no built ledger has |
| RunnerLineage.PassesIff | runtime/research/build_stable_id_reconciliation_coverage.py:539-744 | a component passes if and only if every raw horse id is its own normal form, composition and spaces included |
| RunnerLineage.SomeoneOwns | runtime/research/build_stable_id_reconciliation_coverage.py:693-697 | every merged occurrence is owned by at least one component |
| RunnerLineage.CoverageIff | runtime/research/build_stable_id_reconciliation_coverage.py:782-904 | build, merge and cover compose if and only if raw ids are their own normal forms, components differ and no primary observation was made twice |
| RunnerLineage.DisjointBatchesAreCovered | runtime/research/build_stable_id_reconciliation_coverage.py:597-744 | with pairwise disjoint observations the audit accepts and every merged occurrence has exactly one owner |
| RunnerRawIds.RawIdDecides | runtime/research/build_stable_id_reconciliation_coverage.py:640-647 | a batch of one race and one starter whose id has a valid normal form: it builds and merges, and the audit accepts if and only if the id is its normal form |
| RunnerRawIds.PaddedIdIsRefused | runtime/research/build_target_runner_stable_id_ledger.py:389-398 | the failing input with a blank before the id: built, merged and then refused |
| RunnerRawIds.FullWidthIdIsRefused | runtime/research/build_target_runner_stable_id_ledger.py:389-398 | the failing input with a full-width digit in the id, which composition narrows: built, merged and then refused |
| Release0079.Coordinator.Guard | deploy/release_0079.py:69-81 | a new release starts only when none is in progress and none is prepared but incomplete |
| Release0079.Coordinator.CheckIntent | deploy/release_0079.py:308-327 | exactly when an existing intent may be resumed |
| Release0079.Coordinator.RecordManifest | deploy/release_0079.py:366-482 | the manifest records what runs now, after the backup, and only once; how far a given number of effects gets |
| Release0079.Coordinator.RecordIntent | deploy/release_0079.py:328-496 | backup, manifest, intent in this order, and exactly when a new intent is admitted |
| Release0079.Coordinator.Prepare | deploy/release_0079.py:243-515 | exactly when preparation succeeds, and that it leaves the pointer with this release and the configuration unchanged |
| Release0079.Coordinator.StopService | deploy/release_0079.py:643-656 | a stop happens only for the active, incomplete release and never for nginx |
| Release0079.Coordinator.Drain | deploy/release_0079.py:640-663 | beat first, then workers and web: only nginx is left |
| Release0079.Coordinator.StartService | deploy/release_0079.py:556-566 | only recorded services are started |
| Release0079.Coordinator.Restore | deploy/release_0079.py:541-573 | the restore loop ends with exactly the recorded services, if and only if nothing else runs |
| Release0079.Coordinator.Finish | deploy/release_0079.py:530-596 | completion if and only if the recorded services and configuration can be restored |
| Release0079.Coordinator.Complete | deploy/release_0079.py:576-595 | the completion is published before the pointer goes away |
| Release0079.Coordinator.RunTasks | deploy/release_0079.py:640-700 | the services are drained and the schema receipt published, unless it is there already |
| Release0079.Coordinator.Release | deploy/release_0079.py:599-705 | a call, interrupted anywhere, keeps every rule; uninterrupted it completes if and only if the state it starts from allows it, spelled out for a new release, a recorded manifest and an existing intent; an orphaned backup is refused without any effect |
| Release0079.Coordinator.ReleaseDespiteInterruptions | deploy/release_0079.py:599-705 | an admitted release, interrupted and resumed any number of times, leaves the services and configuration that were found, and completes if and only if the first call that got anything done got more done than the backup |
| Release0079.Coordinator.StrandedByBackup | deploy/release_0079.py:366-482 | the call that ends between backup and manifest leaves an orphan, every later resume is refused, and no service is touched |
| Release0079.NoStopBeforeIntent | deploy/release_0079.py:485-510 | in every history no service is stopped before a durable intent holds the set that ran at preparation |
| Release0079.CompletionRestores | deploy/release_0079.py:574-586 | in every history a completion finds the recorded services and configuration |
| Release0079.StopOrder | deploy/release_0079.py:640-663 | in every history beat stops first, web last and nginx never |
| Release0079.StartOrder | deploy/release_0079.py:541-573 | in every history only recorded services start, web first and nginx after all others |
| Release0079.IntentOrder | deploy/release_0079.py:485-515 | in every history intent and pointer are taken in the recorded state, and the pointer goes away only after the completion |
| Release0079.ActiveStaysWithin | deploy/release_0079.py:541-573 | undisturbed, an active release only ever runs recorded services and leaves nginx alone |
| OfficialResults.LoadManifest | runtime/research/collect_official_graded_race_results.py:115-200 | accepted exactly for unique races of known providers within every request budget |
| OfficialResults.Collector.StartFetch | runtime/research/collect_official_graded_race_results.py:457-470 | the count is durable before the fetch starts |
| OfficialResults.Collector.RecordReply | runtime/research/collect_official_graded_race_results.py:468-505 | what each reply does to status, cache and outcome: only a network error may be retried |
| OfficialResults.Collector.Attempt | runtime/research/collect_official_graded_race_results.py:455-505 | one race: exactly when it succeeds, and what it costs |
| OfficialResults.Collector.TakeTurn | runtime/research/collect_official_graded_race_results.py:437-505 | settled races are never touched again; otherwise the race is attempted |
| OfficialResults.Collector.VisitRaces | runtime/research/collect_official_graded_race_results.py:437-505 | the race loop keeps what was settled and, with good replies, succeeds if and only if the remaining budget pays for every race |
| OfficialResults.Collector.GoodTurnMeans | runtime/research/collect_official_graded_race_results.py:455-505 | which turns are good: in time, with a page that parses and fits its cache |
| OfficialResults.Collector.CollectRows | runtime/research/collect_official_graded_race_results.py:507-534 | output rows exist exactly if every race succeeded and its cached page parses |
| OfficialResults.Collector.LoadCheckpoint | runtime/research/collect_official_graded_race_results.py:351-394 | a checkpoint is loaded exactly if there is none, or it is resumed and its races, providers and counts fit the manifest; what earlier runs left always fits |
| OfficialResults.Collector.Run | runtime/research/collect_official_graded_race_results.py:423-554 | one run: what it keeps, and exactly when it completes |
| OfficialResults.Collector.RunAll | runtime/research/collect_official_graded_race_results.py:423-554 | over any runs and crashes fetches stay within durable counts within budgets, settled races are absorbing and never fetched again, and output needs every race |
| OfficialResults.Collector.OutputIsComplete | runtime/research/collect_official_graded_race_results.py:507-534 | final output exists only if every race of the manifest succeeded |
| OfficialResults.Collector.FreshIsAffordable | runtime/research/collect_official_graded_race_results.py:195-200 | the manifest's budget check is exactly what a first run without retries needs |
| OfficialResults.Collector.RetryNeedsSlack | runtime/research/collect_official_graded_race_results.py:457-460 | a temporary failure leaves the collection completable if and only if the provider's budget had a request to spare |
| ParticipantBatches.EligibleHasRegion | runtime/research/build_p0_participant_completion_batches.py:182-207 | exactly which candidates are eligible |
| ParticipantBatches.ReasonMeans | runtime/research/build_p0_participant_completion_batches.py:182-207 | which reason an excluded candidate gets |
| ParticipantBatches.NothingIsDropped | runtime/research/build_p0_participant_completion_batches.py:275-291 | every source entry is either batched or excluded with its reason |
| ParticipantBatches.Collect | runtime/research/build_p0_participant_completion_batches.py:271-291 | the source loop: refused exactly for a repeated key, otherwise entries are shared out in order |
| ParticipantBatches.SortByKey | runtime/research/build_p0_participant_completion_batches.py:308-311 | a region's candidates in ascending order of their keys, none lost |
| ParticipantBatches.CutRegion | runtime/research/build_p0_participant_completion_batches.py:312-331 | the cut keeps every row in order, fills every batch but the last, and numbers on |
| ParticipantBatches.CutAll | runtime/research/build_p0_participant_completion_batches.py:305-331 | all regions together hold exactly the eligible candidates |
| ParticipantBatches.RegionsPartition | runtime/research/build_p0_participant_completion_batches.py:307-311 | every eligible candidate belongs to exactly one allowed region |
| ParticipantBatches.Build | runtime/research/build_p0_participant_completion_batches.py:244-360 | exactly when there is a plan, and that it is one |
| ParticipantBatches.PlanIsPartition | runtime/research/build_p0_participant_completion_batches.py:275-352 | an entry is in exactly one batch if it is eligible, and excluded otherwise |
| ParticipantLedger.LoadIndex | runtime/research/p0_participant_execution_ledger.py:62-75 | the index check counts batches and rows |
| ParticipantLedger.StepIsSound | runtime/research/p0_participant_execution_ledger.py:188-429 | every accepted transition keeps the completed prefix and the active batch as the next ordinal |
| ParticipantLedger.HistoryIsSound | runtime/research/p0_participant_execution_ledger.py:107-168 | in every reachable ledger the completed entries are an exact prefix of the index |
| ParticipantLedger.EveryCompletion | runtime/research/p0_participant_execution_ledger.py:267-428 | each completed batch was claimed, prepared, released, applied and verified in this order while it was next; its manifest processed every row, its evidence names the digests of its predecessors and one production state, and its verification passed with nothing remaining |
| ParticipantLedger.StageAccepts | runtime/research/p0_participant_execution_ledger.py:320-428 | exactly which evidence moves the active batch on, from each phase |
| ParticipantLedger.LoadedLedger | runtime/research/p0_participant_execution_ledger.py:107-168 | exactly which ledgers are loaded |
| ParticipantLedger.LedgerFile.WrittenLedgersLoad | runtime/research/p0_participant_execution_ledger.py:107-168 | every ledger ever written passes its own load-time validation |
| ParticipantLedger.LedgerFile.ClaimBatch | runtime/research/p0_participant_execution_ledger.py:191-201 | the next batch is claimed, or the same claim repeated |
| ParticipantLedger.LedgerFile.RetryBatch | runtime/research/p0_participant_execution_ledger.py:208-266 | exactly which prepared attempts may be retried, and that they are remembered |
| ParticipantLedger.LedgerFile.PrepareBatch | runtime/research/p0_participant_execution_ledger.py:267-319 | exactly which completion manifests prepare the active batch |
| ParticipantLedger.LedgerFile.StageBatch | runtime/research/p0_participant_execution_ledger.py:320-428 | exactly which evidence releases, applies or verifies |
| ParticipantLedger.LedgerFile.CheckNext | runtime/research/p0_participant_execution_ledger.py:176-184 | only the next batch of the index can be worked on |
| ParticipantLedger.LedgerFile.AdvanceBatch | runtime/research/p0_participant_execution_ledger.py:202-428 | every action but a claim needs exactly the active batch and its evidence, and writes and logs exactly one transition |
| ParticipantLedger.LedgerFile.Update | runtime/research/p0_participant_execution_ledger.py:78-429 | an action is accepted if and only if the rules allow it, and the file then holds exactly the new ledger unless the call crashed |
| ParticipantExecution.PlannedIndexLoads | runtime/research/p0_participant_execution_ledger.py:62-75 | every built plan passes the ledger's index check |
| ParticipantExecution.VerifiedMeansDone | runtime/research/p0_participant_execution_ledger.py:169-175 | a fully completed ledger has put every eligible candidate through exactly one verified batch |
| ReviewedBackfill.CheckRanks | scripts/backfill_reviewed_race_gaps.py:149-155 | ranks are accepted if and only if they are in order and each is one more than the number of smaller ones, ties included |
| ReviewedBackfill.DistinctRanks | scripts/backfill_reviewed_race_gaps.py:152-153 | the distinct ranks in ascending order |
| ReviewedBackfill.ValidateEntry | scripts/backfill_reviewed_race_gaps.py:113-155 | accepted exactly for 1 to 60 consecutively numbered rows that replace every old row once and whose ranks follow the positions, each one more than the number of rows ranked better |
| ReviewedBackfill.RanksMean | scripts/backfill_reviewed_race_gaps.py:149-155 | the rank list of an entry in terms of its rows |
| ReviewedBackfill.ResultTable.SetRow | server/stable/models.py:3491-3493 | one statement succeeds exactly if no other row has the position and the column can hold it |
| ReviewedBackfill.ResultTable.TemporaryStart | scripts/backfill_reviewed_race_gaps.py:218-219 | the temporary positions start right above all rows and all final positions |
| ReviewedBackfill.ResultTable.Park | scripts/backfill_reviewed_race_gaps.py:218-221 | moving all rows out of the way never collides |
| ReviewedBackfill.ResultTable.Place | scripts/backfill_reviewed_race_gaps.py:222-227 | placing the entry rows never collides and leaves exactly them |
| ReviewedBackfill.ResultTable.Rewrite | scripts/backfill_reviewed_race_gaps.py:191-234 | the transaction commits if and only if the temporary positions fit, and rolls back completely otherwise |
| ReviewedBackfill.ResultTable.CheckAfter | scripts/backfill_reviewed_race_gaps.py:166-171 | the row checks compare every row in position order |
| ReviewedBackfill.RowChecksHold | scripts/backfill_reviewed_race_gaps.py:166-171 | after a rewrite the row checks always hold |
| ReviewedBackfill.ResultTable.Execute | scripts/backfill_reviewed_race_gaps.py:178-243 | exactly when an event is applied, recognised as applied or refused, and that only applying changes it |
| ReviewedBackfill.ResultTable.ApplyTwice | scripts/backfill_reviewed_race_gaps.py:204-213 | applying the same manifest again changes nothing and is recognised |
| RollbackReceipt.StepIsSafe | deploy/create_rollback_control_state.py:227-264 | no step of a process loses the receipt, and what the process relies on holds afterwards |
| RollbackReceipt.KnowledgeIsStable | deploy/create_rollback_control_state.py:227-264 | no change by another process takes that away |
| RollbackReceipt.StepIsOwn | deploy/create_rollback_control_state.py:227-264 | a process goes on after its link or unlink only if that changed the directory, and no other step changes it |
| RollbackReceipt.RunKeepsSound | deploy/create_rollback_control_state.py:227-264 | every move of every schedule keeps the receipt reachable whatever a power loss keeps, keeps what each process relies on, and takes no report back |
| RollbackReceipt.ReceiptDirectory.Advance | deploy/create_rollback_control_state.py:227-264 | one atomic step on the shared directory |
| RollbackReceipt.ReceiptDirectory.PowerLoss | deploy/create_rollback_control_state.py:255-263 | a power loss keeps a prefix of the unsynced changes and the same inodes reachable |
| RollbackReceipt.ReceiptDirectory.Interleave | deploy/create_rollback_control_state.py:167-266 | over any schedule of processes and power losses directory, processes and reports are those of the pure run; exactly the original inodes stay reachable, and after any own completion the active name is off the disk |
| RollbackReceipt.ReceiptDirectory.CompleteAlone | deploy/create_rollback_control_state.py:167-266 | how a process alone ends, and that a completion of its own is synced |
| RollbackReceipt.RerunCompletes | deploy/create_rollback_control_state.py:229-264 | whatever was left behind, an uncrashed rerun ends with only the completed name |
| RollbackReceipt.OwnCompletionIsDurable | deploy/create_rollback_control_state.py:242-264 | once any process has reported the completion as its own, at every later moment of every schedule a power loss leaves exactly the completed name |
| RollbackReceipt.OnlyOwnCompletionIsDurable | deploy/create_rollback_control_state.py:229-264 | a printed report promises that the completion survives every schedule if and only if it is the report of an own completion |
| RollbackReceipt.AtMostOneCompletes | deploy/create_rollback_control_state.py:227-264 | without a power loss at most one of any number of processes reports the completion as its own |
| RollbackReceipt.UntrustedIsUntouched | deploy/create_rollback_control_state.py:184-225 | over any schedule a receipt that is not the expected one is never moved nor reported as completed |
| RollbackReceipt.AlreadyCompletedIsNotDurable | deploy/create_rollback_control_state.py:229-233 | already-completed does not promise that: a schedule of two processes ends with this report and only the completed name visible, and a power loss then brings the active name back |
| RollbackReceipt.FailedIsNotDurable | deploy/create_rollback_control_state.py:234-241 | neither does a failure: a schedule in which the slower of two processes fails while only the completed name is visible, and a power loss brings the active name back |
| RollbackReceipt.AlreadyCompletedCanBeUndone | deploy/create_rollback_control_state.py:231-233 | an unsynced unlink followed by the already-completed report can be undone |
| HtmlRedactor.EscapedHasNoTags | scripts/f02_readonly_export.py:173-175 | escaped text never contains a tag |
| HtmlRedactor.Redactor.HandleEndTag | scripts/f02_readonly_export.py:164-171 | the innermost element with the tag and everything above it is closed |
| HtmlRedactor.Redactor.HandleStartEndTag | scripts/f02_readonly_export.py:159-162 | a self-closing tag opens and, unless void, closes |
| HtmlRedactor.Redactor.Feed | scripts/f02_readonly_export.py:151-182 | the event loop runs the stack machine |
| HtmlRedactor.BlockedIsSilent | scripts/f02_readonly_export.py:151-175 | the blocked flag is upward closed, and no event changes the output while a blocked element stays open |
| HtmlRedactor.BlockedContent | scripts/f02_readonly_export.py:151-175 | inside a blocked element, content that does not escape only stacks up blocked elements |
| HtmlRedactor.BlockedContentIsReplaceable | scripts/f02_readonly_export.py:151-182 | well-nested content of a blocked element may be replaced without changing the result |
| HtmlRedactor.RunKeepsBalance | scripts/f02_readonly_export.py:155-175 | every prefix of the output has no more closing than opening tags, for every tag |
| HtmlRedactor.RunWrites | scripts/f02_readonly_export.py:151-175 | the output is exactly the safe tags and escaped text outside every withheld element: the inherited flag equals looking at all open elements |
| HtmlRedactor.EscapeReadsBack | scripts/f02_readonly_export.py:173-175 | escaped text reads back as the original |
| BulkPartitions.EarliestDateIsInWindow | runtime/research/audit_racing_api_bulk_partition_readiness.py:48-63 | the earliest query date is the day after the prior-year anniversary, 29 February included, and not after 1 January; year 1 fails |
| BulkPartitions.NextDayIsNext | runtime/research/audit_racing_api_bulk_partition_readiness.py:213-215 | no date lies between a day and the next, and only the last date has none |
| BulkPartitions.LeapsAre | runtime/research/audit_racing_api_bulk_partition_readiness.py:48-63 | the first n years have n/4 - n/100 + n/400 leap years |
| BulkPartitions.DaysAre | runtime/research/audit_racing_api_bulk_partition_readiness.py:48-63 | the lengths of the months |
| BulkPartitions.RangesForYear | runtime/research/audit_racing_api_bulk_partition_readiness.py:202-223 | consecutive days from start to end, exactly when the year is due, the range is not empty and does not end on the last representable date |
| BulkPartitions.RoutesPartition | runtime/research/audit_racing_api_bulk_partition_readiness.py:297-313 | every target is in exactly one route class |
| BulkPartitions.Classify | runtime/research/audit_racing_api_bulk_partition_readiness.py:258-313 | the classification loop |
| BulkPartitions.BulkYearHasDays | runtime/research/audit_racing_api_bulk_partition_readiness.py:300-315 | a bulk target's year has a range that holds its known day |
| BulkPartitions.Partition | runtime/research/audit_racing_api_bulk_partition_readiness.py:314-332 | every bulk region and year gets its range |
| BulkPartitions.BuildReadiness | runtime/research/audit_racing_api_bulk_partition_readiness.py:226-332 | exactly when the audit reports, which class every target is in, and that the days queried for a region and year are exactly those of the window in that year |
| BulkPartitions.ReportedQueries | runtime/research/audit_racing_api_bulk_partition_readiness.py:257-332 | a target is not due, bulk or historical by its flag, its year and whether its date lies in the window; every bulk region and year is queried on exactly its days in the window |
| BulkPartitions.EachBulkDayIsQueriedOnce | runtime/research/audit_racing_api_bulk_partition_readiness.py:257-332 | a bulk target with a known day not after the as-of date is queried by exactly one daily range |
| TrustedBundle.CheckFile | scripts/verify_delivery_test_evidence.py:77-100 | exactly what one file has to satisfy |
| TrustedBundle.Extract | scripts/verify_delivery_test_evidence.py:72-108 | the worklist ends; it succeeds if and only if every reachable path passes, and returns exactly the reachable paths |
| TrustedBundle.ExtractTrustedBundle | scripts/verify_delivery_test_evidence.py:65-108 | the same from the fixed roots at an exact commit |
| TrustedBundle.ReachableIsLeast | scripts/verify_delivery_test_evidence.py:72-107 | every set that contains the roots and is closed under imports contains everything reachable |
| TrustedBundle.HasParentMeans | scripts/verify_delivery_test_evidence.py:77-78 | which paths have a climbing component |
| TrustedBundle.SafePathMeans | scripts/verify_delivery_test_evidence.py:77-78 | which paths are safe |
| TrustedBundle.BundleIsChecked | scripts/verify_delivery_test_evidence.py:72-107 | every file of a bundle has a safe path, is the blob that the controls name, and brings exactly its imports along |
| RollbackEnv.LinesAreUnbroken | scripts/build_race_live_rollback_env.py:48 | lines contain none of the line breaks of splitlines |
| RollbackEnv.SplitJoined | scripts/build_race_live_rollback_env.py:101-104 | splitting joined lines gives them back |
| RollbackEnv.ReadAssignments | scripts/run_race_live_rollback_one_shot.py:154-168 | the assignment loop |
| RollbackEnv.ReadSource | scripts/build_race_live_rollback_env.py:39-66 | exactly which sources the printer accepts |
| RollbackEnv.LoadEnvironment | scripts/run_race_live_rollback_one_shot.py:57-84 | exactly which environment files the reader accepts |
| RollbackEnv.LineReadsBack | scripts/run_race_live_rollback_one_shot.py:156-167 | a printed line reads back as its key and value, whatever the value contains |
| RollbackEnv.ReadPrinted | scripts/run_race_live_rollback_one_shot.py:154-168 | a printed file reads back as exactly its pairs |
| RollbackEnv.PrintedIsValid | scripts/run_race_live_rollback_one_shot.py:57-84 | what was printed passes the pre-start validation |
| RollbackEnv.RoundTrip | scripts/build_race_live_rollback_env.py:101-104 | whatever source is accepted, the reader gets exactly the database and fixed values back and accepts them |
| RollbackEnv.SafeValueMeans | scripts/build_race_live_rollback_env.py:56-65 | which database values are safe, by character |
| RollbackEnv.ValidEnvironmentMeans | scripts/run_race_live_rollback_one_shot.py:57-84 | exactly which environments are accepted; that no forbidden key is among them follows |
| RollbackEnv.KeyMeans | scripts/build_race_live_rollback_env.py:36 | which keys are valid, by character |
| RollbackEnv.PrintThenLoad | scripts/build_race_live_rollback_env.py:101-104 | printer and reader together, for payloads within 64 KiB |

## Left out

- Operating-system detail: modes, owners, symbolic links, process groups, signals and the lock files themselves. Calls that hold a lock are atomic with respect to each other.
- Wall-clock time. Whether a deadline or a time budget was missed is an input.
- Formats: JSON, CSV, HTML and Python parsing. Records arrive as values, HTML as parser events, imports as a function of the file.
- Files that somebody else rewrites between calls. The checks against such changes are in the models, but the proofs about runs assume that only the modelled programs write their own state.
- F02Transfer.HostStore.Transfer: validation of the capsule, the byte budgets of control files and the contents of `verify_bundle`, which is a function of the package here.
- F02Transfer.EventKeepsInv: an orphaned copy is assumed to write only between calls and only into a stage; a write during a verification, or through descriptors that stay open after the rename, is not modelled.
- F02DockerAdapter.RunSchedule: the output limits and the process handling of `Runner.run`; a helper's result is an input.
- RunnerLedgerMerge.Merge: reading and authenticating the source ledgers, seed ids, manifest counters and the files that are written.
- RunnerLedgerBuild.Build: loading a materialisation. How a race resolves to a target and which positions are those of starters are parameters.
- RunnerLedgerBuild.AddRace: the tables of Unicode Normalization Form KC. It is an arbitrary function on strings that leaves ASCII text unchanged, and every result holds for all such functions.
- RunnerCoverage.BuildCoverage: held, external and bulk components, matching a materialisation to its source ledger, the texts inside binding rows and the sort order of the written rows.
- Release0079.Coordinator.Release: images, writer flags, backups, database schema and the admission handoff are outside checks; `release_0078.py` and the recovery markers of earlier releases are not part of this model.
- Release0079.Coordinator.Disturb: services and configuration are changed from outside only between two calls, never while one is under way.
- OfficialResults.LoadManifest: the URL, grade, distance, name, geography and date checks of one race, and the uniqueness of URLs.
- OfficialResults.Collector.LoadCheckpoint: the identity fields of a checkpoint and the shape of its JSON.
- OfficialResults.Collector.Run: URLs, redirects, parsing and the final sort of the rows. A page and its cached file each have a parser as a parameter.
- ParticipantBatches.Build: the artifact files, the review rows and the copied sources.
- ParticipantLedger.LedgerFile.Update: malformed ledger files; a ledger is a value of its datatype.
- ReviewedBackfill.ValidateEntry: the checks of an entry against its source rows, its provenance and its other columns.
- ReviewedBackfill.ResultTable.Execute: the guards on managed events, source provenance and the other columns; several events of one manifest.
- RollbackReceipt.ReceiptDirectory.Interleave: the bytes of a receipt; whether an inode holds the expected receipt is a predicate of the inode.
- BulkPartitions.Classify: whether the rows of a target and its region agree is one flag per target.
- BulkPartitions.BuildReadiness: the consistency of target and coverage rows is one flag per target; the as-of date of the target catalogue and the report's counters are not modelled.
- RollbackEnv.ReadSource: the size limit and the permissions of the source file.
- Single-pass audit and capture scripts, which are long conjunctions of field checks.
