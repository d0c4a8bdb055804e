# Atlas CLI: verified models of the ledgers and state machines

Atlas CLI keeps its durable state in a handful of small ledgers and state machines: claim
files for learning requests, an event-sourced execution graph, a hash-chained evidence
ledger, operator result files, a nonce ledger, an alert state file. This project models
them in Dafny and proves what they promise over every input, every run and every
interleaving. `dafny verify dfyconfig.toml` checks everything.

Where the program changes state in place there is a class or a loop, proved equal to a
function on values; the theorems are lemmas about those functions and about all runs of
them.

- **Learning claims** (`ClaimContract`, `ClaimStore`, `ClaimProtocol`, `ClaimAnswers`,
  `Projections`, `ClaimRuns`). A
  transition system in which any number of workers race on claim files; every read,
  exclusive create and compare-and-swap is one atomic step, and a worker may crash or meet
  an exception between any two. A second layer adds the three replayable effects (goal,
  evidence claim, spend receipt) under the projection lock.
- **Execution graph** (`HandContract`, `ExecContracts`, `ExecLedger`, `ExecApi`,
  `ExecSafety`, `ExecSteps`, `ExecReconciliation`, `ExecGoals`, `ExecShown`, `ExecResting`,
  `ExecEvidence`, `ExecReceipts`, `ExecWaiting`, `ExecFork`, `ExecBare`, `ExecGraph`,
  `HandVerdicts`, `ExecAnswers`, `ExecVerdicts`). An append-only event log with a cached
  snapshot, the eleven-state lifecycle, the public API, the verifier port and the hand
  adapter; a disk oracle decides for each write whether the append and the snapshot write
  succeed. The theorems hold over all runs of a single
  writer. A run is *clean* if every graph.json it wrote passes the schema it is read with.
  A write is *shown* if the reads after it see its event: the snapshot is written, or the
  event is recorded and no snapshot was written so far. A disk *never forks* if nothing is
  recorded any more once a snapshot write has failed after one that succeeded; it is
  *reliable* if every write succeeds. A reliable disk never forks, and all its runs are
  clean; on which other disks they are is `ExecBare.RunsStayCleanIff`.
- **Goal runner** (`GoalRunner`, `GoalTurns`). The plan loop over that graph. It creates
  every task with one constant source and no key, so reconciliation gives all its plans one
  task.
- **Evidence and hashing** (`Decimal`, `CanonicalJson`, `JsonTexts`, `EvidenceLedger`,
  `EvidenceHash`, `EvidenceAnswers`). The hash chain, and the entry hash as a digest of
  canonical JSON text.
- **Decision** (`Sorting`, `NextBestAction`, `NextActionScores`). Candidates, scores,
  ranking, review.
- **Operator pipeline** (`OperatorContracts`, `OperatorPipeline`, `OperatorSoundness`,
  `OperatorCollision`, `OperatorSafeIds`, `OperatorGates`, `OperatorStore`,
  `ControlPlane`, `ControlAnswers`, `RunIds`, `RunIdForms`). Dispatch, evaluation with one
  retry, promotion, lifecycle, run ledger, and the validator of the persisted state.
- **Supporting state** (`QueueAuth`, `PayloadVerdicts`, `Alerts`, `AlertStorage`,
  `AlertBands`).

The modules whose names end in Answers, Verdicts, Turns, Gates, Scores, Bands, Forms or
Texts say what each operation answers in terms of what a caller can see: requests, clocks
and lease lengths, files and commands outside, gates, wrong answers, signatures, fields of
a claim.

Properties that turned out false of the code are stated with the exact condition under
which they hold:

- Two idempotency keys share a claim file exactly if they agree up to the characters that
  sanitising replaces (`ClaimContract.SharedClaimFile`).
- The rebuilt task histories of all runs on a disk are legal exactly if the disk never
  forks: no snapshot write fails after one that succeeded and is followed by a recorded
  write (`ExecFork.RebuildsStayLegalIffNoFork`). What reads show stays legal on every disk
  while runs are clean (`ExecSafety.HistoriesAreLegal`).
- Reads show a task resting in evidence-submitted, verified, rejected or closed without
  evidence, in some run on a disk, exactly if some write after three shown ones is not shown
  and followed by one that is (`ExecBare.ReadsStayEvidencedIff`); the rebuild does exactly
  if such a write fails to append and the next one appends
  (`ExecBare.RebuildsStayEvidencedIff`). Verified tasks always have some.
- A graph.json that fails its own schema is written in some run on a disk exactly if a
  submission is lost in that way, a later write is shown, a closing is lost in the same way,
  and a snapshot is written with it or after it (`ExecBare.RunsStayCleanIff`). Two failed
  writes do it, whether their appends fail or only their snapshots
  (`ExecBare.AClosedTaskWithoutEvidence`). Of a single move,
  `ExecEvidence.EvidenceIsLostIffAllAppendsFail` says when the rebuild loses its evidence
  and `ExecEvidence.EvidenceIsUnshownIffNoneIsShown` when the reads do.
- A task can be verified on a receipt of another task. Every verdict of every run is about a
  receipt of its own task exactly if the receipts recorded directly as evidence name the
  task they are recorded for (`ExecReceipts.VerdictsAreOwnIff`).
- A goal created again, with anything in between, is recorded twice exactly if its first
  event was not shown and the second is recorded (`ExecGoals.GoalIsRecordedAgainIff`).
- While graph writes succeed, a goal run completes exactly if it has no plan, or one plan
  and no task of the runner has left proposed before (`GoalRunner.GoalCompletesIff`), so on
  one graph only the first goal with a plan completes (`GoalRunner.OnlyTheFirstGoalCompletes`).
- Candidate generation throws exactly for the concepts `constructor` and `__proto__`, which
  the preference table inherits (`NextBestAction.CandidatesAreAllActions`).
- The evidence snapshot is current exactly if the last appended line's snapshot write
  succeeded; repeating a failed call does not repair it
  (`EvidenceLedger.SnapshotFollowsTheLastAppend`).
- A payload can be accepted twice exactly if it is dated at or after its own acceptance
  (`QueueAuth.ReplayableIffPostdated`).
- Failures and recoveries alternate for all readings exactly if nothing is observed after a
  tick whose state could not be stored (`AlertStorage.AlternationIffOnlyTheLastIsUnstored`),
  and the stored state keeps step exactly if every observing tick was stored
  (`AlertStorage.TrackingIffEverythingIsStored`).
- A built run id is in the ledger already exactly if the number after the last is rounded
  back to it and the id of the last is spelled canonically (`RunIds.RunIdIsTakenIff`).
- Run ids order as their numbers exactly if the smaller number is at most the larger one
  cut to the same length (`RunIds.IdsOrderIff`); 1,000,000 sorts before 999,999.
- Every passed run of a source task rests on a passing file, whatever its surroundings,
  exactly if the source id is not its own cut-off derived id, or the task expects no kind of
  evidence but what every child records, or it is a manual task that cannot succeed
  (`OperatorSafeIds.AlwaysSoundIff`).

## Model

| member | source | states |
|---|---|---|
| ClaimContract.SharedClaimFile | src/learning/claim-store.ts:24-31 | two keys share a claim file exactly when they have the same length and, wherever they differ, each has an underscore or a character that is replaced by one |
| ClaimContract.DistinctKeysMayShareAFile | src/learning/claim-store.ts:24-31 | two different keys with one claim file |
| ClaimContract.WhatAFileNameKeeps | src/learning/claim-store.ts:24-31 | a file name keeps the letters, digits, dots, underscores and dashes of its key and has an underscore for everything else |
| ClaimStore.FileLearningClaimStore.CreateClaim | src/learning/claim-store.ts:241-252 | creation writes only an absent file and touches no other file |
| ClaimStore.FileLearningClaimStore.CasClaim | src/learning/claim-store.ts:254-275 | the swap succeeds exactly on the expected generation, writes the next generation, and touches no other file |
| ClaimStore.FileLearningClaimStore.BeginOperation | src/learning/claim-store.ts:96-166 | every outcome and the stored claim after it, for a caller nobody interrupts; what the outcomes are is stated by `ClaimAnswers` |
| ClaimStore.FileLearningClaimStore.CompleteOperation | src/learning/claim-store.ts:168-190 | ok exactly for the current owner, generation and a processing claim; then the claim is completed with that proof, else nothing changes |
| ClaimStore.FileLearningClaimStore.FailOperation | src/learning/claim-store.ts:192-220 | the same guard for failing; the reason is cut to 500 characters |
| ClaimStore.FileLearningClaimStore.ReadProof | src/learning/claim-store.ts:222-226 | a proof is read from completed claims only |
| ClaimProtocol.WritesAreLegal | src/learning/claim-store.ts:96-220 | whatever a worker knows, its next write is a legal successor of the stored claim |
| ClaimProtocol.CurrentSnapshotIsStored | src/learning/claim-store.ts:254-275 | a snapshot whose generation is the stored one equals the stored claim, however old it is |
| ClaimProtocol.Agreement | src/learning/request-port.ts:212-341 | in every interleaving at most one completion per claim file is acknowledged, and every caller that reports completed carries exactly the stored proof, of its own request |
| ClaimProtocol.HistoryOnlyGrows | src/learning/claim-store.ts:107-163 | versions are only added, legally, and a completed claim never changes again |
| ClaimProtocol.CompletedTakesNoVersion | src/learning/claim-store.ts:111-117 | no step of anybody writes a version after a completion |
| ClaimProtocol.Lineage | src/learning/claim-contract.ts:77-103 | in every run the generation counts the writes, attempt is one more than the takeovers and retries, the request hash never changes, and only the last version can be a completion |
| ClaimProtocol.TakeoversReplaceExpiredLeases | src/learning/claim-store.ts:119-144 | a takeover only ever replaces another owner's claim whose lease had expired; a completed claim's proof carries its request hash |
| ClaimProtocol.StaleHolderIsFenced | src/learning/claim-store.ts:175-218 | a worker holding an old generation writes nothing and is told no ok in any continuation |
| ClaimProtocol.RetriesArePaidByOthers | src/learning/claim-store.ts:100-144 | the retries of one beginOperation never exceed the versions others wrote since its first read |
| ClaimProtocol.BeginAloneIsTwoSteps | src/learning/claim-store.ts:96-166 | undisturbed, the two atomic steps of begin are the store's beginOperation |
| ClaimProtocol.AloneItCompletes | src/learning/request-port.ts:212-341 | a worker that may write and is left alone completes with its own proof in six steps |
| ClaimAnswers.FirstBeginProceeds | src/learning/claim-store.ts:96-109 | an empty claim file is claimed at once, by its first attempt, until the lease length past the clock |
| ClaimAnswers.ProceedingOwns | src/learning/claim-store.ts:96-166 | whoever may go on owns the file, under the next generation and in the clock of the call |
| ClaimAnswers.TheLeaseLasts | src/learning/claim-store.ts:119-144 | after any begin that goes on at t with lease L, the same request from another owner is in flight exactly before t + L and from then on takes over, for one attempt more |
| ClaimAnswers.TheOwnerRefreshes | src/learning/claim-store.ts:119-131 | the owner is never told to wait and keeps its attempt |
| ClaimAnswers.TheRefreshedLeaseLasts | src/learning/claim-store.ts:119-144 | a refresh grants the whole lease again from its own clock on, by the same law |
| ClaimAnswers.OtherWorkConflicts | src/learning/claim-store.ts:107-110 | another request under a claimed key conflicts, whatever became of the claim |
| ClaimAnswers.EveryClaimIsAnswered | src/learning/claim-store.ts:107-163 | what begin answers to a claim in each state, as one case distinction on hash, state, owner and clock |
| ClaimAnswers.OnlyTheHolderMayWrite | src/learning/claim-store.ts:168-218 | after a begin only its owner may complete or fail, and only under its generation |
| ClaimAnswers.CompletingIsFinal | src/learning/claim-store.ts:107-117 | after a completion every begin of the same work is answered with its proof, other work conflicts, nobody may complete or fail, and the proof is what is read |
| ClaimAnswers.FailingAllowsARetry | src/learning/claim-store.ts:146-163 | after a failure a begin of the same work goes on at once, with one attempt more, and remembers the failure |
| ClaimAnswers.TheHolderProvesItsWork | src/learning/request-port.ts:271-327 | an undisturbed holder stores and reports a proof with the artifacts, hashes and receipt of its own request |
| ClaimAnswers.TheHolderReportsItsFailure | src/learning/request-port.ts:327-341 | when computing throws, the holder fails its claim and reports the error, cut off after 500 characters |
| ClaimAnswers.AnOvertakenWorkerReports | src/learning/request-port.ts:287-341 | an overtaken worker writes nothing and reports the proof it finds, a duplicate, or a failure |
| ClaimAnswers.ALostRaceStartsOver | src/learning/claim-store.ts:98-105 | a lost create or swap starts over from the read, and counts as one retry |
| ClaimAnswers.CompletionsAreAcknowledged | src/learning/request-port.ts:287-295 | a step acknowledges a completion exactly when its swap is written without a throw, with worker, file and proof |
| ClaimAnswers.AThrowEndsTheBegin | src/learning/request-port.ts:234-238 | a store that throws during begin ends the call, even where its write took place or was lost |
| ClaimAnswers.AThrowFailsTheWork | src/learning/request-port.ts:274-341 | a store that throws during completion turns it into the report of a failure, even where the completion was written |
| ClaimAnswers.ACrashIsFinal | src/learning/claim-store.ts:168-218 | a crashed worker writes nothing and is told nothing more, in any continuation |
| ClaimAnswers.TakeoversWaitForTheLease | src/learning/claim-store.ts:119-144 | in every run, a takeover replaces a creation, takeover, retry or refresh and is stamped at least the lease length of that write after it |
| Projections.AtMostOnceAndNeverEarly | src/learning/projections.ts:40-168 | under every interleaving, crash and lost append each of the modelled log entries occurs at most once, and only after its claim is durably completed; a goal is one append here |
| Projections.ExactlyOnceAfterACleanReplay | src/learning/projections.ts:136-168 | a replay that ran to its end leaves exactly one of each effect its kind requires, whoever else replayed |
| Projections.ReplayIsIdempotent | src/learning/projections.ts:136-159 | replaying a proof again changes no log |
| Projections.EffectLeftAlone | src/learning/projections.ts:40-134 | the atomic check and append of one effect, undisturbed, ensure its id and touch no other log |
| Projections.WhatAReplayLeaves | src/learning/projections.ts:136-159 | the ids a replay leaves, in terms of the key and kind of the request: each appended unless it is there, the goal for decisions only |
| Projections.ACleanReplayLeaves | src/learning/projections.ts:161-168 | after a clean replay in any run each of these ids is there exactly once |
| Projections.AWorkerAloneReplays | src/learning/projections.ts:161-168 | a worker that gets the lock and is left alone replays its proof as a whole |
| ClaimRuns.ARequestCanBeServed | src/learning/request-port.ts:212-341 | from whatever a run has left, a new request that may be begun and whose projection lock is free can be served to the end: completed with the proof of its own work, every effect logged, the proof reported |
| ClaimRuns.ClaimsGoThroughARun | src/learning/request-port.ts:212-341 | locks, effects and other producers included, the claim files of every run are those of a run of the claim protocol alone |
| Projections.AThrowEndsTheReplay | src/learning/projections.ts:161-168 | a throwing append ends the replay and gives the lock back; the id is there exactly if the throw came after the write |
| Projections.LocalLedgers.ProjectDecision | src/learning/projections.ts:40-92 | each of the three decide effects is appended only if absent |
| Projections.LocalLedgers.ProjectOutcome | src/learning/projections.ts:94-134 | each of the two outcome effects is appended only if absent |
| Projections.LocalLedgers.ProjectFromProof | src/learning/projections.ts:136-159 | the effects replayed from a proof, by kind |
| ExecLedger.AppendKeepsFile | src/exec-graph/ledger.ts:296-360 | whatever a write does, graph.json stays the fold of a subsequence of the ledger |
| ExecLedger.AppendKeepsSync | src/exec-graph/ledger.ts:113-192 | without a failed snapshot write the incremental update equals the full rebuild |
| ExecSafety.SnapshotRefinesRebuild | src/exec-graph/ledger.ts:278-360 | over all runs: reads are the fold of the whole ledger if no snapshot write failed, and of some subsequence always |
| ExecSafety.HistoriesAreLegal | src/exec-graph/transitions.ts:45-111 | on every disk, as long as the run is clean, each task that reads show walked a legal path from proposed (exits from escalated by ceo or external-cto, nothing leaves closed, verified or rejected entered from evidence-submitted only, closing after judgement); on a disk that never forks, each task of reads and rebuild did |
| ExecSafety.LegalPathsAreJudged | src/exec-graph/transitions.ts:45-62 | a legal path that reaches closed entered verified or rejected before |
| ExecAnswers.EdgesBothWays | src/exec-graph/transitions.ts:45-62 | the lifecycle, exit by exit and entrance by entrance |
| ExecAnswers.TransitionIs | src/exec-graph/transitions.ts:80-111 | when a transition succeeds and what it leaves: the status, one more entry of history, and nothing else |
| ExecAnswers.WhyTransitionsFail | src/exec-graph/transitions.ts:80-111 | which error a failing transition gives, in the order of the checks |
| ExecAnswers.MovingIs | src/exec-graph/api.ts:208-245 | where writes succeed, a public move succeeds exactly if the edge is there, the actor may take it, references are well formed and needed evidence exists; it never makes a verdict; status and references are then shown |
| ExecAnswers.NewTasksAre | src/exec-graph/api.ts:124-166 | a new task is what was asked for: proposed, without evidence, with its creation as history |
| ExecAnswers.CreatingAGoalIs | src/exec-graph/api.ts:81-104 | a goal is created exactly if it is well formed and somebody creates it, or there already |
| ExecAnswers.AddingEvidenceIs | src/exec-graph/api.ts:309-319 | evidence is added exactly to a known task, well formed and by somebody |
| ExecAnswers.ReassigningIs | src/exec-graph/api.ts:265-300 | a task changes hands publicly to anybody but a hand |
| ExecAnswers.AssigningIs | src/hands/exec-graph-adapter.ts:159-212 | a planned task is delegated to a registered hand, attended if the hand needs it, and owned by it; a refusal changes nothing |
| ExecAnswers.AbortingIs | src/hands/exec-graph-adapter.ts:302-328 | the task of a hand is aborted exactly while delegated or in progress, and is then blocked |
| ExecAnswers.WhatAReceiptNeeds | src/hands/contract.ts:62-128 | what a receipt needs, kind by kind |
| ExecAnswers.ReceiptsThatAreRefused | src/hands/exec-graph-adapter.ts:126-272 | malformed, foreign, leaking and ownerless receipts are refused and change nothing, on every disk |
| ExecAnswers.SubmittingIs | src/hands/exec-graph-adapter.ts:244-300 | a new receipt is taken exactly while its task is delegated or in progress; the task is then submitted with it as its newest |
| ExecSafety.VerifiedMeansChecked | src/hands/exec-graph-adapter.ts:330-405 | on every disk, each transition to verified cites a recorded non-narrative receipt of that task that the verifier accepted, and accepted again in a second environment if the risk of the task as read was not low |
| HandVerdicts.FileExistsTurnsOnItsFile | src/hands/verifier.ts:103-119 | a well-formed, unprotected file receipt is accepted exactly if the file is there: changing that one look changes the verdict |
| HandVerdicts.CommitExistsTurnsOnItsObject | src/hands/verifier.ts:120-132 | the same for a commit and the object its reference names |
| HandVerdicts.FileContainsTurnsOnItsFile | src/hands/verifier.ts:133-146 | the same for a text in a file |
| HandVerdicts.CommandOutputTurnsOnItsCommand | src/hands/verifier.ts:147-172 | the same for a text in the output of an allowed command |
| HandVerdicts.OnlyItsLookMatters | src/hands/verifier.ts:103-202 | environments that agree on that one look give the same verdict |
| HandVerdicts.NothingOutsideNothingAccepted | src/hands/verifier.ts:103-202 | where no file, commit or output exists, only browser actions can be accepted |
| HandVerdicts.GuardsRefuse | src/hands/verifier.ts:67-93 | a protected path or command and a command off the list are refused in every environment |
| HandVerdicts.BrowserActionsSpeakForThemselves | src/hands/verifier.ts:173-196 | a browser receipt is accepted exactly if no action failed and the expected text, if any, was seen |
| HandVerdicts.AFailedActionIsNeverAccepted | src/hands/verifier.ts:173-196 | one failed action refuses the receipt |
| HandVerdicts.TheSecondLookConfirms | src/hands/refuter.ts:36-54 | without risk one look decides; with risk a second one must agree |
| ExecVerdicts.TheNewestReceipt | src/hands/exec-graph-adapter.ts:214-219 | the latest receipt is the one no other comes after |
| ExecVerdicts.ReadyTasksGetTheirVerdict | src/hands/exec-graph-adapter.ts:348-405 | on a reliable disk, a submitted task with a readable newest receipt becomes verified or rejected and shows it |
| ExecVerdicts.AFileDecides | src/hands/exec-graph-adapter.ts:348-405 | a task submitted with a file becomes verified exactly if the file is there at each look, else rejected |
| ExecVerdicts.ACommitDecides | src/hands/exec-graph-adapter.ts:348-405 | the same with a commit |
| ExecVerdicts.AFilesContentDecides | src/hands/exec-graph-adapter.ts:348-405 | the same with a text in a file |
| ExecVerdicts.ACommandDecides | src/hands/exec-graph-adapter.ts:348-405 | the same with a text in the output of a command |
| ExecVerdicts.BrowserActionsDecide | src/hands/exec-graph-adapter.ts:348-405 | with browser actions: exactly if none failed and the expected text was seen |
| ExecVerdicts.GuardedReceiptsAreRejected | src/hands/exec-graph-adapter.ts:348-405 | narratives, protected paths and forbidden commands leave the task rejected, whatever is outside |
| ExecVerdicts.WithoutAReceiptItIsRejected | src/hands/exec-graph-adapter.ts:348-405 | a submitted task without a receipt is rejected |
| ExecVerdicts.ElseNothingHappens | src/hands/exec-graph-adapter.ts:348-405 | in every other case nothing is written |
| ExecBare.ReadsStayEvidencedIff | src/exec-graph/contracts.ts:80-149 | after all runs on a disk, tasks that reads show in evidence-submitted, verified, rejected or closed have evidence, exactly if no write after three shown ones is not shown and followed by one that is |
| ExecBare.RebuildsStayEvidencedIff | src/exec-graph/ledger.ts:113-192 | the same of the rebuild, exactly if no append after three shown writes fails and is followed by one that does not |
| ExecBare.RunsStayCleanIff | src/exec-graph/ledger.ts:278-360 | all runs on a disk write only snapshots that pass their schema, exactly if it has no four writes q, r, s, t in this order: q lost after three shown ones, the one after q and r shown, s lost and the one after it shown, and the snapshot of t, after s, written |
| ExecShown.EveryRunIsPaced | src/exec-graph/api.ts:208-245 | after every clean run on every disk, no task reads show has more transitions than there were shown writes, and one resting without evidence took the lost and shown writes of its path; a run is unclean only after those of a closing |
| ExecSafety.HandOwnersAreRegistered | src/hands/exec-graph-adapter.ts:159-212 | a hand owner is always a registered hand |
| ExecFork.RebuildsStayLegalIffNoFork | src/exec-graph/ledger.ts:296-318 | the rebuilt histories of all runs on a disk are legal exactly if no snapshot write fails after a successful one and is followed by a recorded write |
| ExecFork.AForkIsReachable | src/exec-graph/ledger.ts:296-360 | for any such three writes, a run from the empty graph whose rebuild accepts one task twice |
| ExecFork.StaleSnapshotForksHistory | src/exec-graph/ledger.ts:296-318 | one failed snapshot write lets the same move be accepted twice |
| ExecEvidence.VerifiedTasksHaveEvidence | src/hands/exec-graph-adapter.ts:348-405 | on every disk, a verified task has evidence, in what reads show and in the rebuild |
| ExecEvidence.EvidenceIsLostIffAllAppendsFail | src/exec-graph/api.ts:208-245 | after a public move the rebuilt task lacks evidence exactly if it did before and the append of every cited reference failed |
| ExecEvidence.EvidenceIsUnshownIffNoneIsShown | src/exec-graph/api.ts:208-245 | after a public move that leaves the run clean, reads show the task without evidence exactly if they did before and no write of a cited reference is shown |
| ExecBare.AClosedTaskWithoutEvidence | src/exec-graph/contracts.ts:80-149 | with the fifth and eighth write failing, be it the append or only the snapshot, and no other failure, a task is submitted, rejected and closed without evidence, and graph.json fails its schema; if the appends fail, the rebuild shows it too |
| ExecReceipts.OwnReceiptsVerifyTheirTask | src/hands/exec-graph-adapter.ts:330-405 | on every disk, if callers record only receipts of the task they record them for, each transition to verified is justified by a receipt of its own task |
| ExecReceipts.VerdictsAreOwnIff | src/exec-graph/api.ts:309-319 | one more receipt, recorded directly and accepted by the verifier, leaves every verdict of every run about a receipt of its own task exactly if it names the task it is recorded for |
| ExecReceipts.AForeignReceiptVerifies | src/hands/exec-graph-adapter.ts:348-405 | without any failed write, a run that verifies a task on a receipt of another one |
| ExecReconciliation.TaskHistoryIsAppendOnly | src/exec-graph/ledger.ts:113-192 | on every disk, no operation removes or rewrites evidence or transitions of a rebuilt task, or changes its identity; the same for the tasks reads show as long as the run is clean or no snapshot write fails |
| ExecReconciliation.DerivedKeyIsInjective | src/exec-graph/api.ts:120-122 | derived keys are equal exactly when the sources are |
| ExecReconciliation.KeysAreDistinct | src/exec-graph/ledger.ts:335-351 | idempotency keys are pairwise distinct in what reads show after every clean run, and on a disk that never forks in reads and rebuild |
| ExecReconciliation.CreateYieldsItsKey | src/exec-graph/api.ts:124-166 | on every disk, a successful create returns the task reads show under the asked key and writes nothing, or a new task if there is none, which is shown exactly if its write gets through to the reads |
| ExecGoals.GoalIsRecordedTwiceIff | src/exec-graph/api.ts:81-104 | creating a goal twice in a row records it twice exactly if the first event was recorded but not shown and the second is recorded |
| ExecGoals.GoalIsRecordedAgainIff | src/exec-graph/api.ts:81-104 | with any operations in between, as long as the run is clean: a goal whose creation was shown is never recorded again, and one whose creation was not, and which nobody else recorded since, is recorded again exactly if the append succeeds |
| ExecReconciliation.ImportsShareExactlyBySource | src/exec-graph/api.ts:185-196 | two imports, with anything in between and on every disk while the run is clean, yield the same task exactly if their sources are equal and the first task was shown after its import; on a reliable disk exactly if the sources are equal |
| ExecReconciliation.MoveRecordsItsEvidenceEvenWhenRefused | src/exec-graph/api.ts:208-245 | on every disk, the exact events a public move with well-formed references appends: the cited evidence stays behind when the move is refused, and just the events whose append fails are missing |
| ExecReconciliation.ResubmissionIsANoOp | src/hands/exec-graph-adapter.ts:244-300 | once a submitted receipt is shown, submitting it again after anything changes nothing, on every disk while the run is clean and always if no snapshot write fails; on a reliable disk every submitted receipt is shown |
| ExecGraph.Graph.PersistEvent | src/exec-graph/ledger.ts:296-318 | ledger line first, then the snapshot file, each of which may fail |
| ExecGraph.Graph.Append | src/exec-graph/ledger.ts:335-360 | deduplication of goals and of tasks by key, validation, then persistence |
| ExecGraph.Graph.CreateTask | src/exec-graph/api.ts:124-166 | creates or returns the deduplicated task; hand owners are refused |
| ExecGraph.Graph.MoveTaskAsVerifier | src/exec-graph/verifier-port.ts:41-75 | the loop that records cited references, then the transition |
| ExecGraph.Graph.AssignHand | src/hands/exec-graph-adapter.ts:191-212 | context checks, delegation, then ownership |
| ExecGraph.Graph.SubmitReceipt | src/hands/exec-graph-adapter.ts:244-300 | receipt checks, no-op on a repeat, start of work, evidence, move |
| ExecGraph.Graph.FindLatestReceipt | src/hands/exec-graph-adapter.ts:214-219 | the newest tool-receipt entry |
| ExecGraph.Graph.Judge | src/hands/refuter.ts:36-54 | accepted exactly if the receipt verifies now, and again in a later environment when the risk is not low |
| ExecGraph.Graph.VerifyAndTransition | src/hands/exec-graph-adapter.ts:348-405 | verified exactly on an accepted latest receipt, else rejected or an error; what is accepted is stated by `HandVerdicts` and `ExecVerdicts` |
| GoalRunner.HandlePlan | src/goal-runner/runner.ts:177-352 | one turn of the loop: start of the task, then pause, red line, external target, budget, breaker, attempt |
| GoalRunner.RunGoal | src/goal-runner/runner.ts:177-353 | the plan loop: a report for each plan or the error that leaves it |
| GoalRunner.StartGoal | src/goal-runner/runner.ts:141-353 | a goal that is not resumed: creation, then the plan loop |
| GoalTurns.TheTurnEnds | src/goal-runner/runner.ts:186-352 | which answer of the moment ends a turn, and with which status the task is left |
| GoalTurns.TheReceiptDecides | src/goal-runner/runner.ts:276-352 | an attempt succeeds exactly if the receipt it hands in is verified |
| GoalTurns.AStopOutOfPlaceLeavesTheLoop | src/goal-runner/runner.ts:186-275 | on every disk, a stop whose task is not shown or may not escalate leaves the loop with that error, and nothing is written |
| GoalTurns.AMalformedGoalIsNotRun | src/goal-runner/runner.ts:141-176 | a goal that is not well formed and not there yet is not run, whatever its plans |
| GoalTurns.StoppedTurnsEscalate | src/goal-runner/runner.ts:186-275 | a turn that is stopped escalates its task |
| GoalRunner.StartSucceedsIff | src/goal-runner/runner.ts:186-275 | on a reliable disk, a plan can start exactly when no goal-runner task of the graph has left proposed, whatever the goal or title |
| GoalRunner.TurnUsesUpTheTask | src/goal-runner/runner.ts:177-352 | on a reliable disk, a turn succeeds exactly if the one task was unstarted, and leaves it started for good |
| GoalRunner.PlansCompleteIffOneTaskSuffices | src/goal-runner/runner.ts:177-353 | on a reliable disk, the plan loop completes exactly if there is no plan, or one and the runner's only task is unused, which it then uses up |
| GoalRunner.GoalCompletesIff | src/goal-runner/runner.ts:141-353 | the same for a whole goal run, with its creation, whatever the goals before |
| GoalRunner.OnlyTheFirstGoalCompletes | src/goal-runner/runner.ts:141-353 | on a new graph on a reliable disk, the first goal with one plan completes and the next goal with a plan fails |
| GoalRunner.TheNextGoalFails | src/goal-runner/runner.ts:141-353 | on a reliable disk and any graph, after a completed goal with a plan the next goal with a plan fails |
| EvidenceLedger.VerifyLedgerChain | src/evidence/ledger.ts:59-77 | the verdict fits: valid, or the first broken entry and how it breaks |
| EvidenceLedger.VerdictIsUnique | src/evidence/ledger.ts:59-77 | a ledger has exactly one fitting verdict, so the reported index is the first broken one |
| EvidenceLedger.TheHeadPinsTheLedger | src/evidence/ledger.ts:32-34 | for every injective entry hash, two valid ledgers with the same last hash are identical |
| EvidenceLedger.AnEntryHashPinsItsHistory | src/evidence/ledger.ts:59-77 | two entry hashes are equal exactly when position and prefix are |
| EvidenceLedger.AnEditReachesTheHead | src/evidence/ledger.ts:59-77 | editing any claim changes every later hash and the head, however the rest is rewritten |
| EvidenceHash.EntryHashIsInjective | src/evidence/ledger.ts:19-34 | the hash of an entry, a digest of the canonical JSON text of previous hash and claim, determines both, for every collision-free digest |
| EvidenceHash.AnInjectiveEntryHashExists | src/evidence/ledger.ts:32-34 | the hypothesis of the three results above can be met |
| EvidenceHash.TheHeadPinsTheProgramsLedger | src/evidence/ledger.ts:59-90 | so the last hash, as the program computes it, pins the whole ledger |
| EvidenceLedger.Ledger.AppendClaim | src/evidence/ledger.ts:79-103 | every outcome: invalid, existing (even on a broken chain), broken, appended, and each write failure |
| EvidenceAnswers.WhatAClaimNeeds | src/evidence/claim.ts:21-54 | what a well-formed claim is, field by field |
| EvidenceAnswers.ChainsAreWhole | src/evidence/ledger.ts:59-77 | a chain is valid exactly if each entry names the hash before it and carries the hash of that and its claim |
| EvidenceAnswers.TheLedgerHolds | src/evidence/ledger.ts:79-103 | after every run the ledger holds, of each id, the first well-formed claim whose line could be written, and nothing else |
| EvidenceAnswers.MalformedClaimsAreRefused | src/evidence/ledger.ts:79-81 | a malformed claim is refused and nothing is written |
| EvidenceAnswers.KnownClaimsAreAnswered | src/evidence/ledger.ts:82-84 | a known id is answered with its first entry and nothing is written |
| EvidenceAnswers.ABrokenChainIsNotExtended | src/evidence/ledger.ts:85-88 | a broken chain takes no new claim |
| EvidenceAnswers.NewClaimsAreAppended | src/evidence/ledger.ts:79-103 | anything else is appended under the hash of the last entry and projected |
| EvidenceLedger.EveryRunKeepsTheChain | src/evidence/ledger.ts:79-103 | over all runs the chain is valid, ids unique, claims well formed, and the snapshot projects a prefix |
| EvidenceLedger.RunsOnlyExtend | src/evidence/ledger.ts:92-92 | nothing written is rewritten |
| EvidenceLedger.SnapshotFollowsTheLastAppend | src/evidence/ledger.ts:82-101 | the snapshot is current exactly when the last appended line's snapshot write succeeded; repeating a failed call never repairs it |
| EvidenceLedger.FirstWriteWins | src/evidence/ledger.ts:83-84 | an id keeps its first entry, whatever is submitted later |
| CanonicalJson.CanonicalIffSame | src/hands/contract.ts:135-157 | same canonical form exactly when equal up to key order at every depth |
| CanonicalJson.CanonicalizeIsIdempotent | src/hands/contract.ts:135-152 | canonicalising twice changes nothing |
| CanonicalJson.StringifyIsInjective | src/evidence/ledger.ts:19-34 | two JSON values have the same text exactly if they are equal, key order included |
| JsonTexts.QuotedStringsAreReadBack | src/evidence/ledger.ts:19-34 | a reader of JSON strings gives back every quoted string, escapes included |
| JsonTexts.ObjectsAre | src/hands/contract.ts:135-157 | the text of an object: its members in braces, each a quoted name, a colon and a text |
| JsonTexts.AHashedClaimHas | src/evidence/ledger.ts:19-34 | the fields the hashed text of a claim has |
| CanonicalJson.HashIffSame | src/evidence/ledger.ts:19-34 | for every collision-free digest, payload hashes agree exactly when the payloads differ in key order at most |
| CanonicalJson.ACollisionFreeDigestExists | src/evidence/ledger.ts:19-34 | the assumption about digests can be met |
| NextBestAction.GenerateCandidates | src/learning/candidate-generator.ts:38-63 | suggested actions first, then the defaults, each at its first occurrence; defaults alone without or after a failing suggester |
| NextBestAction.CandidatesAreAllActions | src/learning/candidate-generator.ts:24-63 | fails exactly on two inherited keys, else a permutation of all actions |
| NextBestAction.ScoreCandidate | src/learning/nba-engine.ts:119-138 | the factors and the clamped sum of the active weights; which are active is stated by `NextActionScores` |
| NextActionScores.WrongCounts | src/learning/nba-engine.ts:99-117 | the number of errors is the number of wrong answers |
| NextActionScores.RepeatedErrorsIff | src/learning/nba-engine.ts:99-117 | errors are repeated exactly if two different answers are wrong |
| NextActionScores.ErrorRateIsAShare | src/learning/nba-engine.ts:81-84 | the error rate is the share of wrong answers, between none and all, and none of no answers |
| NextActionScores.ErrorRateIgnoresOrder | src/learning/nba-engine.ts:81-84 | it does not depend on the order of the answers |
| NextActionScores.SignalsAre | src/learning/nba-engine.ts:99-117 | each signal as a condition on mastery, energy, time, concept and the wrong answers, with its numbers |
| NextActionScores.ScoresAreTotals | src/learning/nba-engine.ts:25-71 | the score of an action in hundredths is the sum, signal by signal, of a table of points; it is never cut off |
| NextActionScores.FactorsAreTheGains | src/learning/nba-engine.ts:119-138 | the factors listed are the signals that are on and worth something to the action |
| NextActionScores.MoreErrorsSpeakForRepetition | src/learning/nba-engine.ts:99-138 | turning a right answer into a wrong one lowers no score of visual explanation, schema diagram or flashcards |
| NextActionScores.MostPointsWin | src/learning/nba-engine.ts:140-172 | the action with most points is decided on, with review exactly below fifty points or on high mastery beside two wrong answers |
| NextActionScores.NamesBreakTies | src/learning/nba-engine.ts:140-147 | of equals the first by name |
| NextActionScores.RepeatedErrorsAtLowMastery | src/learning/nba-engine.ts:150-172 | low mastery, two wrong answers and no high energy: visual explanation, without review |
| NextActionScores.HighEnergyAndMastery | src/learning/nba-engine.ts:150-172 | high energy, half the mastery and at most one error: grilled, reviewed unless that was one error in two or three |
| NextActionScores.MediumEnergyAndMastery | src/learning/nba-engine.ts:150-172 | medium energy, half the mastery and no error: grilled, for review |
| NextActionScores.LowEnergyAndMastery | src/learning/nba-engine.ts:150-172 | low energy, low mastery, no error and a plain concept: flashcards, for review |
| NextActionScores.AllWrongAtLowEnergy | src/learning/nba-engine.ts:150-172 | low energy, half the mastery and only wrong answers: visual explanation |
| NextActionScores.TheRestOfTheDecision | src/learning/nba-engine.ts:86-97 | difficulty by mastery, reason by the number of wrong answers, review by score or conflict, with their numbers |
| NextActionScores.SuggestionsComeFirst | src/learning/candidate-generator.ts:38-63 | suggested actions come first, in their order and under their hint, then the other defaults in theirs |
| NextActionScores.DefaultCandidatesAre | src/learning/candidate-generator.ts:17-36 | the candidates of each concept, in order |
| NextBestAction.RankIgnoresOrder | src/learning/nba-engine.ts:140-147 | the ranking depends only on which candidates there are |
| NextBestAction.SuggestionsCannotSteer | src/learning/nba-engine.ts:150-172 | for every score function, input and suggestion the decision is the default one |
| NextBestAction.TheDecisionIsTheTopThree | src/learning/nba-engine.ts:150-157 | the winner, the next two as alternatives, and everything else after them |
| NextBestAction.SchemaDiagramIsNeverChosen | src/learning/nba-engine.ts:25-71 | one action is always outscored and never wins |
| NextBestAction.ApplyReviewPolicy | src/learning/review-policy.ts:16-36 | the flag after the three rules |
| NextBestAction.ReviewIffLowScoreOrConflict | src/learning/review-policy.ts:16-36 | review is required exactly on a low score or a mastery conflict; the third rule adds nothing |
| NextBestAction.RoundingIsExact | src/learning/nba-engine.ts:77-79 | rounding the score to two places changes nothing |
| OperatorContracts.PassesIffNoIssue | src/operator/evaluator.ts:97-151 | a result passes exactly when it is a success with all expected evidence, proof on every item, no errors and an existing trace |
| OperatorGates.PassingInPlainTerms | src/operator/evaluator.ts:97-151 | what makes a result pass, field by field |
| OperatorGates.EachIssueCostsTwenty | src/operator/evaluator.ts:140-151 | each issue costs 20 points; five or more leave none |
| OperatorContracts.PromotedIff | src/operator/promotion.ts:66-139 | promoted exactly on a passing evaluation whose files exist and with a token |
| OperatorSoundness.EvaluationOutcome | src/operator/evaluator.ts:195-254 | a passing evaluation names the file it passed; a retry happens only for a retryable task |
| OperatorSoundness.DispatchExtends | src/operator/dispatcher.ts:1345-1432 | a dispatch writes its own result file, at most one retry file, and hands at most one retry back; runners of other routes are taken to write nothing else |
| OperatorSoundness.EvaluationStageJudgesTheDispatch | src/operator/dispatcher.ts:721-881 | the evaluation task of a lifecycle judges the dispatched result |
| OperatorSoundness.PromotionStageOutcome | src/operator/dispatcher.ts:883-982 | a promoted promotion rests on the passed evaluation it loaded |
| OperatorSoundness.PassedEntriesAreSound | src/operator/run-ledger.ts:36-103 | a passed ledger entry implies promotion and a winning file, still in place, that passes for the source task; it is the dispatch or its single retry |
| OperatorSoundness.WinnerSurvivesIffIdsAreSeparate | src/operator/lifecycle.ts:29-33 | after a successful run of a source that is not manual, its file still holds the dispatched result exactly if the id is not its own cut-off derived id |
| OperatorCollision.PassedRunIsSoundIff | src/operator/lifecycle.ts:29-33 | of one passed run: it rests on a passing file exactly if a retry won, or the ids are separate, or the overwriting child records every kind of evidence the source expects |
| OperatorSafeIds.AlwaysSoundIff | src/operator/lifecycle.ts:29-33 | every passed run of a source, in every world and surroundings, rests on a passing file exactly if the ids are separate, or the source expects only what every child records, or it is a manual task that cannot succeed |
| OperatorCollision.PassingDispatchIsPromoted | src/operator/lifecycle.ts:112-164 | a dispatched result that passes is promoted without a retry when both children may run |
| OperatorCollision.ACollidingRunIsUnsound | src/operator/lifecycle.ts:29-33 | a run that is entered as passed while no file in place passes for its task |
| OperatorPipeline.ShortIdsAreSeparate | src/operator/lifecycle.ts:29-33 | ids of at most 70 characters never collide |
| OperatorPipeline.DerivedIdCollides | src/operator/lifecycle.ts:29-33 | the derived id in closed form, and when it is the source id |
| OperatorPipeline.BuildLedgerEntry | src/operator/contracts.ts:142-188 | every entry built satisfies the cross-field rules of the entry schema |
| OperatorGates.EntriesOfPlainResults | src/operator/run-ledger.ts:36-103 | the entry of a result that is no lifecycle is passed exactly if it is a success with all expected evidence and something that names it |
| OperatorSoundness.EntryPassesIffLifecycleSucceeds | src/operator/run-ledger.ts:78-103 | the entry is passed exactly when the lifecycle succeeded |
| OperatorSoundness.LifecycleDispatches | src/operator/lifecycle.ts:112-164 | exactly which tasks are dispatched, with at most one retry |
| OperatorSoundness.WritersRunOnce | src/operator/evaluator.ts:72-76 | nothing dispatched after the source may write, so a writing task is never dispatched twice |
| OperatorStore.Store.WriteOperatorTrace | src/operator/dispatcher.ts:84-129 | result file, browser traces and persisted last run with its promotion |
| OperatorStore.Store.EvaluateOperatorResultWithRetry | src/operator/evaluator.ts:195-254 | source attempt, and one retry when it fails and the task is retryable |
| OperatorStore.Store.DispatchManualEvaluation | src/operator/dispatcher.ts:721-881 | every refusal, and the evaluation result |
| OperatorStore.Store.DispatchManualPromotion | src/operator/dispatcher.ts:883-982 | every refusal, and the promotion result |
| OperatorStore.Store.DispatchOperatorTask | src/operator/dispatcher.ts:1345-1432 | gates first, then the route; what each leaves is stated by `OperatorGates` |
| OperatorGates.AClosedGateBlocks | src/operator/dispatcher.ts:1345-1395 | with control inactive or a path missing, on every route, the result is blocked with an error at its own path, no other result is touched and nothing else is dispatched |
| OperatorGates.AClosedGateSaysWhy | src/operator/dispatcher.ts:1360-1395 | a control block, and only that, leaves the control note |
| OperatorGates.AClosedGateIgnoresTheRunner | src/operator/dispatcher.ts:1360-1395 | behind a closed gate the runner and the retry make no difference |
| OperatorGates.AnOpenGateRuns | src/operator/dispatcher.ts:1396-1432 | through open gates, on a route that is not manual, the result has the status of the runner and contains its evidence |
| OperatorGates.EvaluationTakesPlaceIff | src/operator/dispatcher.ts:721-881 | an evaluation takes place exactly if there is a result it asks about and a task to judge it by |
| OperatorGates.TheEvaluationJudges | src/operator/dispatcher.ts:721-881 | it judges that result by that task, with at most one retry |
| OperatorGates.EvaluationsSaySo | src/operator/dispatcher.ts:721-881 | an evaluation shows what it read, has errors exactly unless it succeeds, one for each issue of a failing result, and where no other evidence is expected succeeds exactly if the result passes |
| OperatorGates.PromotionTakesPlaceIff | src/operator/dispatcher.ts:883-982 | a promotion takes place exactly if the result it names is there, and rests on its evaluation, files and tokens |
| OperatorGates.PromotionsSaySo | src/operator/dispatcher.ts:883-982 | the same for a promotion, which succeeds exactly if it promotes |
| OperatorGates.AFailureIsRetriedOnce | src/operator/evaluator.ts:195-254 | a second try exactly if the first does not pass and the task is read-only on a repeatable route; then the second decides |
| OperatorGates.ABlockedRetryFails | src/operator/evaluator.ts:195-254 | a retry behind a closed gate rescues nothing |
| OperatorGates.EvaluationsTellOfEvidence | src/operator/evaluator.ts:37-95 | each attempt lists the sources and tokens of its own result, trimmed, once, without blanks; the evaluation collects them |
| OperatorGates.AttemptsTellOfBoth | src/operator/evaluator.ts:153-193 | the attempts, score and issues recorded are those of the result judged and of its retry |
| OperatorStore.Store.RunOperatorLifecycle | src/operator/lifecycle.ts:112-266 | dispatch, evaluation, promotion and the lifecycle record |
| OperatorGates.NoRunSucceedsPastAClosedGate | src/operator/lifecycle.ts:112-266 | with a gate closed at dispatch, evaluation or promotion no run succeeds |
| OperatorGates.ABlockedSourceEndsTheLifecycle | src/operator/lifecycle.ts:112-164 | a source that is blocked ends its lifecycle, with nothing else dispatched |
| OperatorGates.ALifecycleRecordsItsChildren | src/operator/lifecycle.ts:165-266 | the paths, evaluation, promotion and status a full lifecycle records |
| OperatorGates.ALifecycleShowsItsChildren | src/operator/lifecycle.ts:60-266 | errors exactly without success, and the paths of the children and then its own as evidence |
| OperatorGates.ThePersistedRunIs | src/operator/dispatcher.ts:84-129 | a persisted lifecycle leaves its own result as the last run |
| OperatorGates.OtherRunsAreNotPersisted | src/operator/dispatcher.ts:84-129 | a lifecycle that is not persisted leaves the last run alone |
| ControlPlane.SummarizeValidation | src/atlas/control-plane.ts:227-327 | every issue, in order |
| ControlPlane.CommandsKeepTheRun | src/atlas/control-plane.ts:333-444 | no command touches the last run; a reroute leaves no lane issue, others leave lane issues as they were |
| ControlAnswers.TheLastCommandSetsTheMode | src/atlas/control-plane.ts:333-444 | over any commands, the mode is that of the last pause, resume, stop or approval |
| ControlAnswers.TheLastRerouteSetsTheLane | src/atlas/control-plane.ts:333-444 | the lane is that of the last reroute |
| ControlAnswers.NothingIsDispatchedUntilResumed | src/atlas/control-plane.ts:130-132 | after a pause or stop nothing is allowed until a resume |
| ControlAnswers.EverythingIsDispatchedOnceResumed | src/atlas/control-plane.ts:130-132 | after a resume everything is, until the next one that closes |
| ControlAnswers.ValidIff | src/atlas/control-plane.ts:227-327 | a state is valid exactly if its parts agree, field by field |
| ControlPlane.LifecycleSatisfiesValidator | src/operator/lifecycle.ts:239-265 | the state any persisted lifecycle writes raises no run, evaluation, promotion or lifecycle issue, then or later, exactly if the trace, the winning file and the child files it names are present; right after the run they are |
| RunIds.PadThenParse | src/operator/run-ledger.ts:69-75 | zero-padded printing and parsing undo each other |
| RunIdForms.ANumberIsReadUpToItsEnd | src/operator/run-ledger.ts:69-75 | a number is read from its digits up to the first other character |
| RunIdForms.TheIdIsTheNextNumber | src/operator/run-ledger.ts:63-76 | an id is the task, the stamp and the number after the last |
| RunIdForms.OneCharacterOfAStamp | src/operator/run-ledger.ts:17-22 | what a stamp keeps of a time, character by character |
| RunIds.RunIdsAreNew | src/operator/run-ledger.ts:63-76 | a new run id is not in the ledger while sequence numbers are below 2^53 |
| RunIds.RunIdIsTakenIff | src/operator/run-ledger.ts:63-76 | the built id is in the ledger already exactly if the number after the last is rounded back to it and the last is in the ledger under its canonical spelling |
| RunIds.RunIdsCollideAtTheRoundingLimit | src/operator/run-ledger.ts:69-75 | at 2^53 the same id is built again |
| RunIds.SuchARoundingExists | src/operator/run-ledger.ts:69-75 | the assumptions about rounding can be met |
| RunIds.IdsOrderAsNumbers | src/operator/run-ledger.ts:75-75 | up to 999,999 ids order as strings as their numbers do |
| RunIds.IdsOrderIff | src/operator/run-ledger.ts:75-75 | two ids order as their numbers exactly if the smaller number is at most the larger one cut to the same printed length |
| RunIds.OrderBreaksAtAMillion | src/operator/run-ledger.ts:75-75 | 1,000,000 sorts before 999,999 |
| RunIds.CanonicalIgnoresOrder | src/operator/contracts.ts:226-238 | the canonical entry is independent of ledger order |
| RunIds.CanonicalIsUnbeaten | src/operator/contracts.ts:226-238 | it is the latest passed entry, or the latest of all |
| RunIdForms.TheCanonicalEntryIs | src/operator/contracts.ts:226-238 | which entry is chosen, in terms of verdicts, times and ids |
| QueueAuth.NonceLedger.RecordIfFresh | src/atlas/queue-auth.ts:157-175 | fresh exactly when unknown; recording, eviction over 10,000 and persistence |
| QueueAuth.NonceLedger.constructor | src/atlas/queue-auth.ts:124-155 | loading keeps the entries younger than a day and rewrites the file |
| QueueAuth.VerifyPayload | src/atlas/queue-auth.ts:77-110 | the checks in order and the ledger after them; when each verdict is given is stated by `PayloadVerdicts` |
| PayloadVerdicts.TheVerdictIs | src/atlas/queue-auth.ts:77-110 | accepted exactly with a payload whose signature is the hmac of the row, a readable time at most a day old and an unknown nonce; and when each refusal is given |
| PayloadVerdicts.RefusalsChangeNothing | src/atlas/queue-auth.ts:77-110 | no refusal changes entries, set or file |
| PayloadVerdicts.AcceptancesAreRecorded | src/atlas/queue-auth.ts:157-175 | an acceptance records the nonce; entries a day old are dropped only beyond ten thousand |
| PayloadVerdicts.RestartsKeepTheLastDay | src/atlas/queue-auth.ts:128-155 | a restart keeps exactly the entries less than a day old |
| PayloadVerdicts.SignedRowsAreAcceptedOnce | src/atlas/queue-auth.ts:58-110 | a signed row with a new nonce is accepted within a day of its date, and refused when repeated at once, unless its own acceptance evicted it |
| PayloadVerdicts.ChangedRowsAreRefused | src/atlas/queue-auth.ts:43-96 | a row whose hash is not that of the signed fields is refused for its signature |
| PayloadVerdicts.OnlyGenuineRowsAreAccepted | src/atlas/queue-auth.ts:77-176 | over every run, whatever was accepted was signed for itself, in date and new |
| PayloadVerdicts.EntriesComeFromAcceptances | src/atlas/queue-auth.ts:124-176 | over every run, an entry was there at the start or put there by an acceptance |
| QueueAuth.EveryRunIsConsistent | src/atlas/queue-auth.ts:124-176 | the set is the nonces of the entries, and the file holds them, over any run |
| QueueAuth.NonceIsHeldForADay | src/atlas/queue-auth.ts:128-175 | an accepted nonce stays through evictions and restarts until a day has passed |
| QueueAuth.SecondAcceptanceIsPostdated | src/atlas/queue-auth.ts:98-107 | a nonce accepted twice was dated no earlier than its first acceptance |
| QueueAuth.ReplayableIffPostdated | src/atlas/queue-auth.ts:77-176 | a genuine payload can be accepted twice exactly when its timestamp is not earlier than its acceptance |
| Alerts.DistinctNamesGiveDistinctIds | src/atlas/autonomy-loop.ts:236-251 | checks with different names have different signal ids |
| Alerts.CurrentReadings | src/atlas/autonomy-loop.ts:236-251 | the readings of a tick, in order |
| Alerts.ComputeSignalEvents | src/atlas/autonomy-loop.ts:279-295 | the notable events and the refreshed state |
| Alerts.AlertLoop.RunTick | src/atlas/autonomy-loop.ts:336-356 | a paused tick does nothing; otherwise events, and the state stored unless writing fails |
| Alerts.OtherSignalsDoNotInterfere | src/atlas/autonomy-loop.ts:279-295 | two runs that agree on one signal give it the same events and record |
| Alerts.FailuresAndRecoveriesAlternate | src/atlas/autonomy-loop.ts:253-295 | if every observing tick is stored, new failures and recoveries strictly alternate; failing exactly when failures outnumber recoveries, by one |
| Alerts.TwoReadingsDecideTheEvent | src/atlas/autonomy-loop.ts:253-269 | two successive readings decide what is announced: turn, strict worsening, or nothing |
| AlertBands.HeartbeatsEscalateIff | src/atlas/autonomy-loop.ts:223-269 | two failing heartbeats escalate exactly if the age crosses a band upward, in hours |
| AlertBands.OtherChecksDoNotEscalate | src/atlas/autonomy-loop.ts:223-269 | no other check escalates |
| AlertBands.TheRepositoriesAreOneSignal | src/atlas/autonomy-loop.ts:236-251 | the watched repositories are the last signal, without bands, and it says whether all could be read |
| AlertBands.TurnsAreAnnounced | src/atlas/autonomy-loop.ts:253-269 | failing after passing and passing after failing are announced, whatever the bands |
| Alerts.AnUnstoredTickRepeatsTheAlarm | src/atlas/autonomy-loop.ts:187-202 | a failure whose state was not stored is announced as new again |
| AlertStorage.AlternationIffOnlyTheLastIsUnstored | src/atlas/autonomy-loop.ts:187-202 | for a pattern of paused and unstored ticks, every signal alternates for all readings exactly if nothing is observed after an unstored tick |
| AlertStorage.TrackingIffEverythingIsStored | src/atlas/autonomy-loop.ts:279-356 | the stored state agrees with what was announced, for all readings, exactly if every observing tick was stored |

## Left out

- The GCS claim store and its object reader: the file store stands for the create-if-absent and compare-and-swap contract both implement.
- Lock files and their ageing: the claim lock and the projection lock are assumed to exclude; waiting for them can time out.
- ClaimStore.FileLearningClaimStore.BeginOperation: states one undisturbed call; the retries after a lost race are the steps of `ClaimProtocol`.
- Receipt files of the request port, the read-only guards in front of every writer, and the prompt and model call that compute a decision: the computed artifacts are an input.
- SHA-256 and HMAC: digests are injective constructors, or arbitrary functions of a text assumed free of collisions where a lemma says so.
- Numbers in JSON text are printed by an injective printing that need not be JavaScript's; the confidence of a claim is a whole number of the smallest double.
- Timestamps are integers, those of evidence claims texts; date formats, message texts, titles and notes that nothing branches on are not modelled.
- JSON text, torn lines and malformed files: logs are sequences of well-formed records, and writing then reading a record gives it back. Array-index keys and `__proto__` as JSON keys are excluded from `CanonicalJson`, which orders keys by characters, not by UTF-16 code units; its theorems need only that the order is total.
- White space is the ASCII kind, and lower-casing is ASCII, which decides the same table look-ups.
- Concurrent writers of the execution graph or the evidence ledger: neither file takes a lock, so their runs have one writer.
- Task ids of the execution graph are numbered; uniqueness of random ids is assumed. Keys that a plain object inherits are not used as ids there.
- Regular-expression lists (protected paths, allowed commands, secret shapes, risk keywords) and the hand registry are arbitrary functions of a policy.
- Status summaries and task listings: they only count and filter.
- ExecSafety.VerifiedMeansChecked: the risk that decides on the second acceptance is that of a fold of some events before, the snapshot that was read; it is the current one if no snapshot write fails.
- Projections.AtMostOnceAndNeverEarly: the goal ledger and graph.json are one log that is appended atomically; what a lost snapshot does to a goal that is created again is `ExecGoals.GoalIsRecordedAgainIff`.
- GoalRunner.RunGoal: budgets, the circuit breaker and the red-line lists appear as the moment's answers; resuming a goal, the leases, the report's totals and the terminal evidence claim are not modelled.
- NextBestAction.ScoreCandidate: weights are reals, not floating-point numbers; a tie in exact arithmetic may be broken differently by rounding. `SuggestionsCannotSteer` holds for every score function and is not affected.
- Reason texts and the decision id of a decision; the suggester's answer is assumed to name known actions only.
- OperatorStore.Store.DispatchOperatorTask: what the runners of the other routes do is an arbitrary outcome, which includes their own gates; browser traces are added as the program does. They are assumed to touch no stored task and no path besides their result file.
- OperatorStore.Store.RunOperatorLifecycle: tasks and results are well-formed records; executor names and times are not kept. Paths are not normalised.
- RunIds.RunIdsAreNew: holds below 2^53; above, the rounding of the next number decides, as `RunIds.RunIdIsTakenIff` says. Printing of numbers from 10^21 on, which JavaScript does with an exponent, is not modelled.
- Alerts.AlertLoop.RunTick: the notification itself, its quiet hours and its texts.
- QueueAuth.NonceLedger.RecordIfFresh: a write of the nonce file that fails is not modelled.
- A corrupt or hand-edited alert state or nonce file, which the program reads as empty or as unknown.
- The spend counter, the persisted goal budgets and the text deduplication: their invariants are one-step.
- Voice, pulse and mood text, morning briefs, Telegram, HTTP, process spawning, browser driving and model calls.
