# Responder: a verified model of its cores

This project models seven cores of Responder, a host that runs operational
investigations over Slack, and proves what its code keeps to over every input,
every run and every interleaving. Each file holds one module.

* **Typed results** (`investigation`, `fold`, `foldspec`, `foldorder`, `carry`,
  `partialround`, `splice`, `restoration`, `refold`, `lastwords`, `sanitize`, `rounds`,
  `roundruns`, `wholerounds`, `laterows`, `again`,
  `decision`, `lanes`, `decoding`, `persistence`, `suppression`, `envelope`, `image`, `correction`).
  A model result is a stream of at most a hundred operations folded into a
  decision. The fold is described without a loop, exactly; the description then
  carries the results about restoring left-out records, whole sequences of
  correction rounds, silenced decisions, persistence, and which results a stream
  can say at all.
* **Fan-out** (`fanout`, `branching`, `branchprotocol`, `branchsafety`,
  `branchruns`, `branchphases`, `branchrecovery`, `branchlosses`). The store's rows change by atomic steps; calls of Finish are
  interleaved with each other, with retried opens, crashes and every other run of
  the incident. Safety and progress are invariants of all runs; the states that can
  still get their synthesis are told exactly, and runs from the empty store that lose
  it are built.
* **Fixture promotion** (`fixturepromotion`, `fixturechecks`, `fixtureruns`). A sweep may die after
  any durable write. Conservation, the rolling bound and the candidate that is
  never receipted are proved over all runs.
* **Supervisor kernels** (`supervisor`), **UTF-8 bounding** (`bytes`, `utf8`,
  `bounding`, `encoding`, after RFC 3629, sections 3 and 4), **context windows** (`slackcontext`) and
  **canonical forms** (`counting`, `ordering`, `changeledger`, `signature`, `aliases`).

What the code changes step by step is a class or a method with loops here, proved
against a function of its inputs or its old state; the results are lemmas about
those functions. The same functions drive the state machines, so a result about
runs is a result about the methods.

## Where the code and its documentation part

* `internal/app/fixture_promotion.go:114-118` says the sweep after a crash writes
  the missing receipt. The code at 92-98 skips the candidate first
  (`FixtureRuns.CutCandidateIsNeverReceipted`).
* `internal/branching/branching.go:466-470` says the last branch to finish queues
  the synthesis. It does not if it is cut off after finishing its run, or if any
  other run of the incident is finalizing at that moment
  (`BranchLosses.RunThatCrashes`, `BranchLosses.RunThatIsBusy`).
* `internal/service/agent_run.go:2850-2858` has each round's rows
  carried forward. The restored rows stand first, and past fifty of evidence the
  sanitiser reads no row of the round (`LateRows.FiftyFirstRowIsLost`).
* `internal/investigation/operations.go:408-427` lower-cases a coverage status before
  accepting it; the sanitiser at `internal/decision/decision.go:1114-1120` compares it
  as written and drops it (`Sanitize.CleanCoverage`).
* `internal/decision/envelope_result.go:84-88` restrains the refusal to envelopes
  the typed shape can express. An ignore with memory and a publication update is
  refused and has no typed form (`Correction.IgnoreCorrection`), nor has a reply
  past the fold's bounds (`Correction.ReplyCorrection`).
* `internal/decision/decision.go:105-109` lets a silenced stream be reparsed. One
  that waits and updates memory beside an in-progress completion is refused
  (`Suppression.SuppressedReadsBackUnless`).

## Model

| member | source | states |
|---|---|---|
| `Fold.FoldResultOperations` | internal/decision/decision.go:1586-1758 | the loop over the stream accepts and writes exactly what the step-by-step reading of the stream does, over whatever the targets held before |
| `Fold.Targets.Write` | internal/decision/decision.go:1608-1749 | one pass of the switch over one operation: refused exactly when a singleton is doubled, the schedule bound is hit or evidence is invalid, and otherwise every target holds its new value |
| `Fold.Targets.WriteCompletion` | internal/decision/decision.go:1718-1749 | a completion fills only what no operation filled before it; visuals and coverage are added to, memory yields to update_memory |
| `FoldSpec.FoldExactly` | internal/decision/decision.go:1586-1758 | wherever the completion stands: the fold succeeds if and only if the stream has at most 100 valid operations with distinct trimmed ids, at most one of each singleton, at most 8 schedule offers and one completion, and then every field is the declared one |
| `FoldOrder.OrderDoesNotMatter` | internal/decision/decision.go:1598-1758 | permuting the operations before a last completion keeps acceptance and every scalar; lists agree as bags, the primary and extra schedules as one bag |
| `FoldOrder.MemoryWins` | internal/decision/decision.go:1668-1673 | update_memory beats the memory of the completion whichever comes first |
| `Investigation.KeyOfKey` | internal/investigation/operations.go:736-742 | deriving a finding key from a key gives the same key exactly when the first left no white space and something of the id; a key is never longer than its id |
| `Investigation.KeyIsWhatWasCorrected` | internal/investigation/operations.go:736-742 | a key belongs to exactly the ids that read, trimmed and in small letters, as the key and any number of -corrected, and no key ends in one |
| `Investigation.OneKeyWhateverTheCase` | internal/investigation/operations.go:736-742 | ids equal up to capitals and outer white space have one key, without a capital |
| `Refold.FoldedAgain` | internal/decision/decision.go:1602-1625 | folding the stream again after its payloads were rewritten through the shared pointers gives the same result and the same applied list |
| `Carry.CarryForward` | internal/decision/enforcement.go:453-475 | the loop with its index map merges two lists into: first place kept, last row under each key, rows without a key appended |
| `Carry.CarryFindings` | internal/decision/enforcement.go:174-194 | prior findings the round answers are dropped, the rest merged with the round by stable identity |
| `Carry.MergeIsOverride` | internal/decision/enforcement.go:453-475 | read as a map, carryForward is last-writer-wins, by any name that tells the same rows apart as the key |
| `Carry.PlacesAreKept` | internal/decision/enforcement.go:453-475 | every row stands where its identity first stood; later rows replace it there or stand behind |
| `Carry.UnnamedRowsStay` | internal/decision/enforcement.go:453-475 | rows without identity all stay, in their order |
| `Carry.IdentityTells` | internal/decision/enforcement.go:174-194 | two findings are held under one identity exactly when their keys are one, or neither has a key and their sentences differ in capitals alone |
| `Refold.SurveyReadsKeys` | internal/decision/partial_round.go:79-84 | a stream whose findings came without keys is surveyed as the one the fold has written keys into |
| `Carry.UnansweredExactly` | internal/decision/enforcement.go:174-218 | the prior findings kept are exactly those no finding of the round speaks of: by key where both have one, else by the sentence up to capitals, or the id where neither has a key |
| `PartialRound.Survey` | internal/decision/partial_round.go:58-95 | the first pass collects exactly the ids used and the evidence, layers and findings the round re-sent |
| `PartialRound.RestoreCarriedRecords` | internal/decision/partial_round.go:47-174 | the three loops with their shrinking room restore exactly the rows the row-by-row specification restores |
| `PartialRound.InsertBeforeCompletion` | internal/decision/partial_round.go:214-231 | the inserted operations stand before the first completion, everything else in place |
| `PartialRound.CarriedIdsDiffer` | internal/decision/partial_round.go:269-280 | two made-up operation ids with one prefix are equal only for one row index, whatever the subjects slug to |
| `Restoration.RestoredSound` | internal/decision/partial_round.go:96-172 | for every stream and ledger: at most 100 operations in all, no id of the round taken, none used twice, every restored operation valid, and the three lists are exactly the rows of the operations |
| `Restoration.EverythingMissingReturns` | internal/decision/partial_round.go:96-172 | every left-out row returns under its own name if and only if all of them fit the bound, pass Validate and share no name with each other or the round |
| `Splice.SplicedFold` | internal/decision/partial_round.go:211-231 | a stream with record operations spliced in folds if and only if the stream folds and no spliced id is one of its trimmed ids; every other field is unchanged |
| `Refold.SplicingIsCoherent` | internal/decision/partial_round.go:176-193 | the staged stream refolds, exactly when no restored id clashes, to the projection ApplyTo built: same scalars, same rows as bags up to the host-only finding id |
| `Refold.TrimmedNeverClashes` | internal/decision/partial_round.go:57-60 | a stream whose ids carry no outer white space always refolds after restoration |
| `Refold.StagedApplied` | internal/decision/partial_round.go:182-189 | the applied list ApplyTo splices is the applied list refolding the staged stream produces |
| `Again.SecondRestoration` | internal/decision/partial_round.go:96-172 | for every stream and ledger: restoring over the completed stream adds nothing if and only if no finding was filed under its own name, goes unanswered by every finding of the round and of the restoration under the key that name gives, and still has room under its made-up name |
| `Again.RestoringTwiceAddsNothing` | internal/decision/partial_round.go:96-172 | in particular it adds nothing when every carried key is its own canonical form |
| `Again.CorrectedKeyComesAgain` | internal/decision/partial_round.go:156-171 | the failing input: an id ending in -corrected -corrected leaves the trimmed key ending in -corrected, whose restoration has another key, and a second restoration files the finding again |
| `Again.CorrectedKeyMultiplies` | internal/service/agent_run.go:2859-2866 | left out of one round, such a finding is held twice after it, once under a key nothing was sent under |
| `Again.UntrimmedIdentifierIsRefused` | internal/decision/partial_round.go:101-109 | a stream id that is a carried id plus white space folds alone and is refused once the row is restored |
| `Sanitize.SanitizeRows` | internal/decision/decision.go:1035-1168 | the loop reads the first so many rows, cleans each or drops it, and nothing past the limit |
| `Sanitize.AcceptedEvidenceIsKept` | internal/decision/decision.go:1035-1101 | evidence Validate takes is dropped exactly when it observed nothing and no dimension has a name |
| `Sanitize.AcceptedCoverageIsKept` | internal/decision/decision.go:1103-1130 | coverage Validate takes is dropped exactly when its layer is unknown or its status has a capital letter |
| `Sanitize.AcceptedFindingIsKept` | internal/decision/decision.go:1139-1168 | a finding Validate takes is never dropped |
| `RoundRuns.EvidenceIsLastWritten` | internal/service/agent_run.go:2815-2866 | over any sequence of accepted rounds, whatever could be restored: the carried evidence is the override of the rows read within the first fifty shown, restored rows ahead, and of all rows sent if and only if each id has its last row read or a repetition |
| `RoundRuns.CoverageIsLastWritten` | internal/service/agent_run.go:2815-2866 | the same for coverage by lower-cased trimmed layer, within the first thirty |
| `Rounds.OneSpelling` | internal/decision/decision.go:1103-1130 | of rows the sanitiser passed, the raw layer the carry keys on and the lower-cased one the restoration keys on tell the same rows apart |
| `RoundRuns.FindingsAreLastWritten` | internal/service/agent_run.go:2815-2866 | the same for findings by trimmed key, within the first twenty, whatever keys they come back under: of all findings sent if and only if the last word under each key was sent and read, repeats what was read, or, put back by the host, repeats what was sent |
| `RoundRuns.NothingSentIsLost` | internal/service/agent_run.go:2815-2866 | as long as in every round what is held and what is sent stay together within fifty, thirty and twenty, the ledger is the last row sent on everything |
| `LateRows.FullLedgerIsDeaf` | internal/decision/decision.go:1042-1043 | behind fifty restored rows no evidence a round sends changes the ledger |
| `LateRows.FiftyFirstRowIsLost` | internal/service/agent_run.go:2815-2866 | any fifty rows in one round and any new one in the next: both rounds fold, the new row passes the sanitiser, and the ledger does not hold it |
| `RoundRuns.DeltaRoundsRefineReemission` | internal/decision/partial_round.go:10-31 | after any sequence of rounds that send only changes, and as long as the missing rows fit, the evidence and coverage the next round shows are the last row ever sent under each identity if and only if each last word of the earlier rounds was read, repeats what was, or is overridden by this round |
| `RoundRuns.DeltaFindingsRefineReemission` | internal/decision/partial_round.go:10-31 | the same for findings, when keys are canonical once trimmed and no round uses the key of a finding it leaves out for another record |
| `WholeRounds.WholeExactlyWhenRoom` | internal/decision/partial_round.go:97-109 | a round shows everything held overridden by what it sent if and only if there is room for every row it left out |
| `Decisions.WatchDecision.ApplyWatchResultOperations` | internal/decision/decision.go:1302-1380 | the dispatch to the wait, suppressed, memory and reply lanes leaves exactly the decision each lane specifies |
| `Lanes.WaitLane` | internal/decision/decision.go:1396-1475 | told from the operations alone: a silent wait is taken exactly when each operation is one of the six kinds or a completion in progress and those six fold; it then leaves exactly the evidence, coverage and findings of its record operations in order, exactly the operations of the six kinds, and the routing fields |
| `Lanes.SuppressedLane` | internal/decision/decision.go:1484-1508 | a suppressed stream is taken exactly when it folds with one completion, and leaves exactly its recorded rows and its memory |
| `Lanes.MemoryLane` | internal/decision/decision.go:1510-1534 | an ignore that updates memory is one valid operation beside an empty result, and changes the memory alone |
| `Lanes.ReplyLane` | internal/decision/decision.go:1346-1380 | any other stream is taken exactly when it folds with one completion, and becomes a reply with the declared projection and the feedback question |
| `Decisions.WatchDecision.ApplySilentWatchWaitOperations` | internal/decision/decision.go:1396-1475 | keeps the six allowed kinds, strips an in-progress completion, refuses anything else, keeps the three record lists and clears the rest |
| `Decisions.WatchDecision.ApplySuppressedWatchOperations` | internal/decision/decision.go:1484-1508 | folds into a scratch decision, keeps records and memory, clears everything that speaks |
| `Decisions.WatchDecision.ApplySilentWatchMemoryOperation` | internal/decision/decision.go:1510-1534 | one valid update_memory beside no other result field, or a refusal that changes nothing |
| `Decisions.WatchDecision.ApplySuppression` | internal/decision/enforcement.go:538-558 | action ignore, no reaction, title, message, offer, work or completion; records and memory stay |
| `Decisions.WatchDecision.AppendFeedbackFollowup` | internal/decision/decision.go:1536-1552 | appends the first needed question the message does not contain, and no other |
| `Lanes.FollowupExactly` | internal/decision/decision.go:1536-1552 | the message keeps all it said, then a blank line, then the first needed question it does not contain, trimmed; one question is added at most |
| `Decisions.WatchDecision.NormalizeWatchDecisionCompletion` | internal/decision/decision.go:637-659 | repairs the completion in the decision and, through the shared pointer, in the stream and the applied list |
| `Decoding.VerdictRepaired` | internal/decision/decision.go:641-658 | only status and verdict change; beside an alert no alert verdict is left in an answer, healthy, degraded and inconclusive come from exactly the verdicts that mean them, and a blocked completion has none |
| `Decoding.RepairReachesTheStream` | internal/decision/decision.go:637-659 | decision and stream are repaired alike, nothing else in either changes, and without an alert assessment a verdict is only trimmed |
| `Decoding.DecodedIsExclusive` | internal/decision/decision.go:417-438 | whatever the record, a decoded decision does one thing: only a reply speaks or offers, only a react names a reaction, title and incident go together, and an ignore completes only as a block with a recheck |
| `Decisions.WatchDecision.SetDecisionReply` | internal/decision/operational_scope.go:83-94 | writes message and follow-ups to the projection and to every complete_episode of the stream |
| `Decisions.WatchDecision.ApplyCarried` | internal/decision/partial_round.go:177-193 | operations spliced before the completion, applied list only when there is one, restored rows ahead of the round's own |
| `Decoding.CompletedRefolds` | internal/decision/partial_round.go:177-193 | the decision ApplyTo leaves is the one its completed stream folds to, whenever that folds: same applied operations, same rows as bags, nothing else changed |
| `Persistence.Unasked` | internal/decision/decision.go:1536-1552 | the message is left unchanged if and only if every needed question is blank or already in it |
| `Persistence.FoldRewritten` | internal/decision/operational_scope.go:80-94 | rewriting the completion in the stream changes the refolded reply in the same way and nothing else |
| `Persistence.PersistenceRoundTrip` | internal/decision/decision.go:126-143 | marshal and decode of an accepted typed reply gives the same decision in every field but task_pull_request, and the same decision if and only if that field is empty |
| `Persistence.RenderedMessageRead` | internal/decision/operational_scope.go:80-94 | a host-rendered message is read back unchanged if and only if no record_feedback still needs a question asked |
| `Persistence.HostRenderedReplySurvives` | internal/decision/operational_scope.go:80-94 | then the whole rendered decision survives marshal and decode |
| `Suppression.SuppressedDecodesSilent` | internal/decision/decision.go:103-113 | any stream marked host-suppressed that decodes has no message, follow-ups, visuals, offers, titles, reaction or completion |
| `Suppression.SuppressionIsPermanent` | internal/decision/enforcement.go:520-533 | a suppressed decision says nothing after any number of marshal and decode cycles |
| `Suppression.CauseIsPermanent` | internal/decision/enforcement.go:520-533 | nor does any number of cycles lose the cause the host gave or the reason the model did |
| `Suppression.SuppressionKeepsWhatWasLearned` | internal/decision/decision.go:1484-1508 | outside the wait lane every number of cycles keeps exactly the evidence, coverage, findings and memory of the unsuppressed fold |
| `Suppression.SuppressedReadsBackUnless` | internal/decision/decision.go:1310-1338 | a suppressed reply whose stream folds is refused on reading if and only if it waits, its completion is absent or in progress, and it holds an operation the silent wait does not take |
| `Suppression.WaitWithMemoryIsRefused` | internal/decision/decision.go:1396-1415 | in particular a stream with wait_external, update_memory and an in-progress completion |
| `Envelope.MisplacedResultFields` | internal/decision/envelope_result.go:41-57 | the loop over the field table lists exactly the present result-bearing fields, memory last |
| `Envelope.RepliesByName` | internal/decision/envelope_result.go:41-57 | each field of the reply is named exactly when it is there, whatever else is |
| `Envelope.RowsByName` | internal/decision/envelope_result.go:41-57 | each record list and schedule likewise |
| `Envelope.OffersByName` | internal/decision/envelope_result.go:41-57 | each offer likewise |
| `Envelope.WorkByName` | internal/decision/envelope_result.go:41-57 | each field of the work likewise, and the four the envelope owns never |
| `Envelope.NothingElseToMove` | internal/decision/envelope_result.go:41-70 | nothing is misplaced if and only if the result is empty, and only memory is if and only if nothing else is there |
| `Image.ImageOfTheFold` | internal/decision/decision.go:1586-1758 | some stream folds to a projection, up to evidence and finding ids, if and only if it has a message, valid rows, titled work, a primary schedule before others, at most 8 schedules, and costs at most 100 operations |
| `Correction.ReplyCorrection` | internal/decision/envelope_result.go:97-103 | a reply envelope has a typed answer with the same action and fields if and only if its result is expressible |
| `Correction.IgnoreCorrection` | internal/decision/envelope_result.go:104-114 | an ignore that carries only memory has a typed answer if and only if it reports no publication update |
| `Correction.EnvelopeCorrectionIsSatisfiable` | internal/decision/envelope_result.go:89-128 | for every refused envelope: the correction can be given exactly under those two conditions |
| `Correction.StreamsReplyOrStaySilent` | internal/decision/decision.go:1302-1344 | a non-empty stream never yields incident, and an unsuppressed ignore that waits for nothing is one update_memory alone |
| `Fanout.GoalRoundTrip` | internal/fanout/branch.go:47-76 | whatever the base and the goal, the goal is read back from the key minted for it, even when base or goal contain the marker |
| `Fanout.BranchOfBranch` | internal/fanout/branch.go:47-52 | a key minted from a branch key is the key minted from the lead |
| `Fanout.BranchSourceIsInjective` | internal/branching/branching.go:365-367 | for lead ids of one length a branch source id names one lead and one goal |
| `Fanout.UnevenLeadsCollide` | internal/branching/branching.go:365-367 | without one length two leads share a source id |
| `Branching.Store.QueueAgentRun` | internal/store/agent_run.go:160-218 | refused while a run of the incident is finalizing, otherwise inserted once per kind and source |
| `Branching.Store.FinishAgentRun` | internal/store/agent_run.go:2090-2111 | only a finalizing run is finished |
| `Branching.Store.ListForLead` | internal/store/fanoutstore/fanoutstore.go:76-111 | the marked children of the lead, oldest first, at most the limit |
| `Branching.Runner.OpenBranches` | internal/branching/branching.go:318-363 | one admission per goal in order, stopping at the first conflict |
| `Branching.Runner.SynthesizeIfReady` | internal/branching/branching.go:471-528 | the loop over siblings queues the synthesis exactly when the goal map says every listed goal has stopped |
| `Branching.Runner.Finish` | internal/branching/branching.go:444-464 | phase, then run, then siblings; a run that is not finalizing ends with its phase written and no reading |
| `BranchPhases.PhaseIsAsTold` | internal/branching/branching.go:444-464 | over every run from the empty store and after every event: a branch row reads completed or blocked exactly as the last phase-writing call for it was told, and working before any |
| `BranchPhases.CallsWereMade` | internal/branching/branching.go:444-464 | every call in flight stands where an earlier event of the run put it |
| `BranchPhases.FinishIsItsSteps` | internal/branching/branching.go:444-464 | Finish without interruption leaves exactly the store its steps leave one by one |
| `BranchPhases.OpenedInOrder` | internal/branching/branching.go:318-363 | what an open adds is the rows of the leading goals not there yet, in order |
| `BranchProtocol.ReadyMeansAllStopped` | internal/branching/branching.go:484-503 | with every branch row admitted and at most 32 of them, the capped goal-keyed reading says ready if and only if every branch has stopped |
| `BranchProtocol.ReadyByPhase` | internal/fanout/branch.go:107-127 | the same, phase by phase: ready exactly when every branch row reads completed, failed, refused, cancelled, superseded or blocked |
| `BranchSafety.StepKeeps` | internal/branching/branching.go:444-528 | every admission, phase write, run finish, reading, queueing, retry, crash and unrelated event keeps the protocol invariant |
| `BranchRuns.FanoutSafety` | internal/branching/branching.go:324-355 | in every interleaving: one row for each lead and goal, at most one synthesis for each lead, and a synthesis only when every branch row is there and has stopped |
| `BranchRuns.ReopeningAddsNothing` | internal/branching/branching.go:42-48 | a retried open of a fan-out whose rows are all there changes nothing |
| `BranchRuns.FanoutProgress` | internal/branching/branching.go:480-503 | once every branch run has finished and no call is in flight, the synthesis exists unless a call was cut off after the last finish |
| `BranchRuns.CleanFinishesSynthesize` | internal/branching/branching.go:444-464 | if every Finish returned without a store error, the synthesis exists |
| `BranchRecovery.SynthesisStillPossible` | internal/branching/branching.go:444-528 | with every branch row there and every branch finished, some run of events still queues the synthesis if and only if a call in flight owes it, Finish being called at any time for any branch with a result |
| `BranchRecovery.ReachedStillPossible` | internal/branching/branching.go:444-528 | the same of every state a run from the empty store reaches, whether or not its branches waited for their fan-out |
| `BranchLosses.RunThatCrashes` | internal/branching/branching.go:457-463 | for every plan and every lead of it: a run from the empty store, all opens first, in which every branch but the last returns and the last is cut off between FinishAgentRun and the reading, and no run of events ever queues the synthesis |
| `BranchLosses.RunThatIsBusy` | internal/branching/branching.go:513-526 | for every plan and every lead of it: such a run with no crash, in which a run of the incident is finalizing when the last branch queues |
| `BranchRuns.EarlySynthesisWhileOpening` | internal/branching/branching.go:324-355 | without the opens-complete assumption a run exists whose synthesis precedes the second branch |
| `BranchRuns.CapHidesTheRest` | internal/branching/branching.go:480-503 | past 32 branches the reading can say ready while one is at work |
| `FixturePromotion.Promoter.PromoteApprovedFixtures` | internal/app/fixture_promotion.go:59-109 | the sweep with its remaining counter and present set, cut after any durable write, leaves exactly the world its specification gives |
| `FixturePromotion.Promoter.PromoteOne` | internal/app/fixture_promotion.go:120-166 | append before receipt, quarantine on a failed check, and nothing after the last write the process lives to make |
| `FixtureChecks.CandidateIsAnswered` | internal/app/fixture_promotion.go:120-166 | one candidate of a live sweep with allowance: appended exactly when it is absent and passes against the corpus as it stands, quarantined exactly when it is absent and fails |
| `FixtureChecks.RunIsChecked` | internal/app/fixture_promotion.go:59-166 | in every run, each line appended belongs to a candidate that passed against the corpus just before it, each quarantine receipt to one that failed against the corpus at that moment |
| `FixturePromotion.Promoter.CountPromotedSince` | internal/store/fixturepromotionstore/fixturepromotionstore.go:113-121 | promotions, not quarantines, at or after the horizon |
| `FixturePromotion.Promoter.ListUnsettled` | internal/store/fixturepromotionstore/fixturepromotionstore.go:66-106 | the first so many approved candidates without a receipt |
| `FixtureRuns.PromotionIsSafe` | internal/app/fixture_promotion.go:59-109 | in every run of sweeps and crashes with monotone times: no episode appended twice, every promoted receipt has its fixture, in any 7 days at most perWeek receipts and perWeek plus cuts appends, appends being exactly receipts plus cuts |
| `FixtureChecks.OneReceiptEach` | internal/store/fixturepromotionstore/fixturepromotionstore.go:128-150 | over all runs no candidate has two receipts |
| `FixtureRuns.NoQuarantineOfPresent` | internal/app/fixture_promotion.go:92-98 | in every run, no quarantine receipt for an episode in the corpus at the moment of writing |
| `FixtureRuns.CutLeavesUnreceipted` | internal/app/fixture_promotion.go:138-149 | a process that dies between append and receipt leaves a candidate whose episode is in the corpus and which has no receipt |
| `FixtureRuns.CutCandidateIsNeverReceipted` | internal/app/fixture_promotion.go:92-98 | no later sweep ever writes its receipt, against the comment at lines 114-118 |
| `FixtureRuns.SweepIsIdleExactly` | internal/app/fixture_promotion.go:68-109 | a sweep with allowance and life for one promotion changes nothing if and only if every candidate of its batch is in the corpus |
| `FixtureRuns.StarvedForever` | internal/store/fixturepromotionstore/fixturepromotionstore.go:55-106 | fifty unreceipted candidates already in the corpus starve every later approval |
| `FixtureRuns.FiftyCutsStarve` | internal/app/fixture_promotion.go:138-149 | a run from the empty corpus gets there: fifty approvals, each promoted by a sweep that dies before the receipt |
| `Supervisor.ProcessOutput.Write` | internal/app/coop_supervisor.go:131-145 | after any write the shifted buffer is exactly the last 16384 bytes of everything ever written |
| `Supervisor.TailIgnoresChunking` | internal/app/coop_supervisor.go:125-145 | how the output was cut into writes leaves no trace in the tail |
| `Supervisor.TailIsTheEnd` | internal/app/coop_supervisor.go:125-145 | the tail is the longest end of the output that fits the limit |
| `Supervisor.RestartBackoff` | internal/app/coop_supervisor.go:580-598 | the doubling loop returns the least of base times two to the failures less one and five minutes, never zero |
| `Supervisor.BackoffDoubles` | internal/app/coop_supervisor.go:580-598 | the wait starts at the base, each failure more doubles it, up to five minutes |
| `Supervisor.RepairGate.Repair` | internal/app/coop_supervisor.go:68-110 | the whole new gate state and the answer for every call, refused ones changing nothing |
| `Supervisor.AnswersAreHonest` | internal/app/coop_supervisor.go:68-110 | over all runs, against the log of builds: Built exactly when the call added a build without error, Failed(e) exactly when it added one with error e, Waiting until the last failure's time plus the backoff of the streak, with its error, and only then |
| `Supervisor.GateIsFaithful` | internal/app/coop_supervisor.go:48-123 | over all runs: failures is the streak of failed builds, lastErr the last build's error and set if and only if failures is positive, no build before next, a prune before exactly the third build of a streak |
| `Supervisor.RepairGate.FailureStreak` | internal/app/coop_supervisor.go:112-123 | answers the two fields GateIsFaithful ties to the builds: the streak of failures and the last error |
| `Supervisor.StreakIsSpaced` | internal/app/coop_supervisor.go:68-110 | the n-th consecutive failure comes no sooner after the first than the sum of the n-1 backoffs between |
| `Utf8.CutValid` | internal/core/text.go:15-27 | a valid text cut at the first byte of a character is two valid texts |
| `Bounding.TruncateUtf8` | internal/core/text.go:15-27 | the trimmed longest valid prefix within the limit, whatever the bytes; a value that fits is returned as it is |
| `Bounding.LongestIsClose` | internal/core/text.go:15-27 | on valid text the cut drops at most three bytes |
| `Bounding.TruncateUtf8WithSuffix` | internal/core/text.go:54-59 | the limit is respected if and only if the value fits or the suffix does; valid stays valid; the suffix is whole |
| `Encoding.ValidIsEncoded` | internal/core/text.go:15-27 | bytes are valid exactly when they are the UTF-8 encoding of some text |
| `Encoding.TrimEncoded` | internal/core/text.go:15-27 | trimming the bytes of a text is trimming the text, for every kind of white space |
| `Encoding.TruncationIsCut` | internal/core/text.go:15-27 | truncating the bytes of any text gives the bytes of the text cut by characters: what the rest of the model does to text is what the source does to bytes |
| `Bounding.SanitizedIsValid` | internal/coop/client.go:862-864 | any bytes become valid text without a zero byte, and such text is left alone |
| `Bounding.ReplacesEachRun` | internal/coop/client.go:863 | valid text stands, and each run of bytes that begin no character becomes one replacement character |
| `Bounding.ReplacesEachZero` | internal/coop/client.go:864 | a zero byte becomes one replacement character |
| `Bounding.BoundPrompt` | internal/coop/client.go:862-877 | valid, at most 262144 bytes: the sanitised prompt or a prefix, the marker and a non-overlapping suffix, each cut within three bytes of its target |
| `SlackContext.MergeSlackContext` | internal/agentcontext/capture.go:52-114 | the window over a strictly ordered transcript of the merged map, read in any order |
| `SlackContext.Precedence` | internal/agentcontext/capture.go:58-94 | at every timestamp the target beats the last admission there, an admission beats the history, and of the history the first message there stands |
| `SlackContext.Provenance` | internal/agentcontext/capture.go:58-94 | every entry is the target, an admission of its conversation or a history message with its words, place and author; nothing with a timestamp that belongs there is left out |
| `SlackContext.TranscriptIsUnique` | internal/agentcontext/capture.go:95-113 | the merged transcript is one list whatever order the map is iterated in |
| `SlackContext.StrictlyByTime` | internal/agentcontext/capture.go:99-113 | its timestamps strictly increase |
| `SlackContext.TargetCentered` | internal/agentcontext/capture.go:153-191 | the kept messages are one run with the target plus the root, up to three after the target before any that precede it |
| `SlackContext.WindowKeepsTheAnchors` | internal/agentcontext/capture.go:153-191 | with a limit of two or more and the target present exactly limit messages are kept, target and root among them |
| `SlackContext.LimitOfOne` | internal/agentcontext/capture.go:168-172 | with a limit of one, one message is kept if and only if there is no distinct root |
| `ChangeLedger.Select` | internal/changeledger/changeledger.go:203-256 | the loops, the stable sort and the cut give the specified entries |
| `ChangeLedger.SelectIsTopK` | internal/changeledger/changeledger.go:203-256 | with unique ids: exactly the first limit of the matching in-window changes, newest first, ties by id, each with its own non-empty reasons, none newer left out |
| `ChangeLedger.SelectedByTheClock` | internal/changeledger/changeledger.go:203-256 | told by the clock and the scope: only changes after the window start that share a service or repository, newest first, ties by id, and one is missing only from a full list of changes no older |
| `ChangeLedger.ReasonsAreShared` | internal/changeledger/changeledger.go:261-274 | the reasons are exactly the shared services and repositories, each under its own name |
| `ChangeLedger.SelectIgnoresOrder` | internal/changeledger/changeledger.go:203-256 | the order the candidates are read in leaves no trace |
| `ChangeLedger.NormalizeRefs` | internal/changeledger/changeledger.go:295-311 | the loop with its early stop keeps the first 12 distinct references, sorted |
| `ChangeLedger.NormalRefsTwice` | internal/changeledger/changeledger.go:295-311 | normalising references again changes nothing |
| `ChangeLedger.RecordedReferences` | internal/changeledger/changeledger.go:295-311 | each list stores exactly the references of the list of that name that were sent with fewer than twelve others before them |
| `ChangeLedger.RecordTwice` | internal/changeledger/changeledger.go:78-95 | a recorded change recorded again is the identical row |
| `ChangeLedger.StoredFormIsKept` | internal/changeledger/changeledger.go:78-95 | a change whose every field is in stored form is recorded as it is, field by field, under the id of its source and identity |
| `ChangeLedger.RecordedIsStored` | internal/changeledger/changeledger.go:78-95 | whatever is recorded is in stored form |
| `Signatures.SignatureOf` | internal/alertstream/signature.go:209-243 | the loops over coverage and findings give the specified signature |
| `Signatures.LayersCanonical` | internal/alertstream/signature.go:222-233 | the layers are sorted, duplicate-free and exactly the unwell ones |
| `Signatures.LayersTold` | internal/alertstream/signature.go:222-233 | a layer is listed exactly when some row calls it degraded, unhealthy or unknown, whatever the case and outer white space |
| `Signatures.FieldsTell` | internal/alertstream/signature.go:209-243 | each field of the signature is read from its own place in the reply |
| `Signatures.OneFindingMore` | internal/alertstream/signature.go:234-241 | one finding more is counted once, on its own side |
| `Signatures.SignatureIsCanonical` | internal/alertstream/signature.go:209-243 | permuting coverage or findings, or repeating coverage, changes nothing |
| `Signatures.ChangeIsSilentExactly` | internal/alertstream/signature.go:264-306 | Change says nothing moved if and only if the signatures agree on all it can show; equal ones always do |
| `Signatures.OneTextMoved` | internal/alertstream/signature.go:264-306 | one text field moved: the line is its name, what it was, the arrow and what it is, none where blank |
| `Signatures.OneCountMoved` | internal/alertstream/signature.go:264-306 | the same for the four counts |
| `Signatures.OneOfferMoved` | internal/alertstream/signature.go:264-306 | the same for the layers and the offer |
| `Signatures.FieldByField` | internal/alertstream/signature.go:264-306 | several fields moved: the line is what each says alone, in a fixed order |
| `Signatures.SilentMeansEqual` | internal/alertstream/signature.go:245-306 | for comma-free layers a silent change means equality but for two absent offers or a task in no repository against one called "a task" |
| `Signatures.CommaHidesALayer` | internal/alertstream/signature.go:276-278 | with a comma in a layer the change is silent over different layers |
| `Aliases.RenameModelAliases` | internal/core/decode.go:77-103 | the loop over the table in some order renames as specified, and reports nothing found only when nothing changed |
| `Aliases.RenamedIsCanonical` | internal/core/decode.go:85-98 | for an unchained table: no alias left, canonical spellings win, untouched fields survive, a missing name takes a value some alias held |
| `Aliases.RenamingIsConfluentExactly` | internal/core/decode.go:85-98 | every order of reading the table gives one object if and only if no two present aliases differ about one missing name |
| `Aliases.RenamingTwice` | internal/core/decode.go:77-103 | renaming again in any order changes nothing |
| `Aliases.GrantTableIsAmbiguous` | internal/core/model.go:598-609 | the grant offer table: both wrong spellings of the count with different values make two readings disagree |

## Left out

* Lower-casing covers ASCII letters; other letters keep their case. Strings are
  sequences of code points; bytes are modelled in `utf8` and `bounding` and joined to
  text in `encoding`.
* An operation carries one payload of its own type. A missing, doubled or foreign
  payload, an unknown type and propose_action are one malformed body that Validate
  refuses. Types are given resolved: a payload's name taken for its operation's, and a
  type with outer white space, which the fold trims and the lane dispatch does not, are
  not modelled.
* The payload checks of plan_goal, wait_external and the other operations that leave
  no field are one bit each; evidence, coverage and findings are checked as the
  source does.
* SanitizeRows: of the three sanitisers, the limits, the identifiers, the coverage row and
  the conditions that drop a row are modelled; their bounds on a row's other fields are
  not.
  CurrentCoverage only stamps a time. The rows the host itself adds between restoring
  and carrying are left out. The rounds of a run are replies; another action restores
  nothing.
* The rules of ValidateReplyDecision are a parameter that may rewrite the projection;
  what they normalise in place through payload pointers is not written back to the
  stream. The attention scores and Slack reaction names are parameters too.
* The report lane's own record: its fold is the Report lane of the same function; the
  field shuffling of ApplyAgentResultOperations and ApplyToReport would repeat the
  watch decision's.
* JSON, YAML, regular expressions, prose recovery, prompts, Slack rendering and
  ReconcileCarriedTaskOffer.
* PartialRoundCorrection: one test of three fields.
* The admission gate of a fan-out, its sessions and its progress rows: goals granted
  to a lead are given, once and at least two. The ids of runs and episodes are row positions; a newer attempt
  of a branch episode, which would stop its phase write, does not occur.
* A blocked branch is never resumed.
* Building a fixture, the corpus parser and the file are one judgement of candidate and
  corpus; an append is one write.
* Locks: each locked method of the supervisor is one step, and a repair takes no time.
* The reading of FIRING and RESOLVED counts from a card: the counts are given.
* EventID is any function of source and identity; ages and timestamps are not rendered.
* Sorting is a stable insertion sort; the library's algorithms agree with it because no
  two items tie.
* FindingsAreLastWritten: asks that no finding is sent or put back under a blank key, for
  then its words, not its key, tell it from others.
* DeltaFindingsRefineReemission: asks that trimmed keys are canonical and that no round
  uses the key of a finding it leaves out as another operation's id, because the source
  then shows that finding under another key (Again.CorrectedKeyMultiplies).
* NothingSentIsLost: asks the same of its findings.
* ApplyWatchResultOperations: starts from an empty applied list and no repository
  contents, as a decision just decoded does; the source would append to both.
* PersistenceRoundTrip: the reply rules are one function at both readings; that what they
  normalise in place comes out the same from the marshalled stream is not shown.
* HostRenderedReplySurvives: likewise.
* QueueAgentRun: the branch that resumes an episode is left out.
* FinishAgentRun: takes the terminal state as valid and queues no follow-up.
