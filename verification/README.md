# Forge engine: verified model of the protocols and algorithms

The engine plans a change, has it approved, executes it step by step through an agent, repairs it when
validation fails, and streams what happens to its clients. This project models the parts of it in which a
mistake would be hard to see by reading one function, and proves what they keep:

- **Plans.** `PlanGraph`, `CycleSearch` and `PlanValidation` hold the two validators (Go and Python) with their
  three-colour search; `Permutations`, `StepSchedule` and `ScheduleProperties` the executor's repeated-pass
  ordering; `PlanExecution` and `ExecutionProperties` the run loop that skips steps whose prerequisites failed, and
  `ExecutionOutcomes` what it records, told from the agent's streams;
  `PlanDependencies` follows `depends_on` from the submitted body through the order to the agent's calls.
- **Retrieval.** `DiversitySelection` is the reranker and the capped greedy selection, `Chunking` the token-limited
  line splitter.
- **Diffs.** `UnifiedDiff` and `DiffProperties` are the edit script, the hunk windows and what the hunks say;
  `DiffGaps` and `DiffExactness` when windows overlap, hunks patch and line counts are right, told from the two files.
- **Protocols.** `WorkItems` and `PlanApproval` are the work-item rows, the handlers and the planning goroutines, one
  user request at a time; `PlanInterleaving` takes edits and execution starts apart into their statements and lets
  all requests overlap. `IngestionJobs` is the job rows, enqueuers and workers; `EventHub` the replay-and-broadcast
  hub. Outside `PlanApproval`, where a request is one step, each SQL statement, transaction, lock section and channel
  operation is one atomic step, in any interleaving, and may fail.
- **Agents.** `StepAgent` and `WriteCache` are the single-step graph and its write cache; `RepairGraph` and
  `RepairAttempts` the repair graph with its tool broker. Model replies and tool outcomes are arbitrary.
- **Repair.** `RepairRollback` is capture, checkpoint and rollback of one attempt, `RepairLoop` the comparison of
  validation runs and the bounded loop around the attempts; `RepairSession` runs the repair graph's calls on the
  workspace and carries its outcome into that loop. `Workspaces` is the workspace both sides work on: a map
  from canonical path to content. `Json` is decoded JSON.

Code that updates state in place is a class or a method with a loop, proved against a function of the old state;
the properties are lemmas about that function, over every input, run or interleaving.

## Where the code does not do what it seems to promise

Each of these has a lemma with a concrete input or run that shows it, and a lemma that says exactly when the code
does keep the promise.

- The plan gate compares step ids only, the executor orders by stable id: an accepted plan with a repeated stable id
  is refused as cyclic (`AcceptedPlanMayFail`). Accepted plans are schedulable exactly when stable ids differ
  (`AcceptedPlanSchedules`).
- The gate asks only that a `stable_id` is there. If it is no string, the executor drops every dependency on the step,
  from the order and from skipping: the dependent can run first (`DependentRunsFirst`). If it is the empty string,
  `findBlockingDep`, which answers "none" with the empty string, never reports the step. Either way a run executes
  the dependent although its prerequisite deviated (`AcceptedPlanLeaks`). The order, the skipping and the agent's
  calls respect `depends_on` in all runs exactly when every step another one depends on has a stable id that is a
  string and not empty (`DependenciesRespectedIff`).
- `UpdatePlan` stores the edit, then withdraws the approval, and only warns when that fails. A failed withdrawal
  (`LostResetRunsUnapprovedPlan`), or an execution started between the two statements with no failure at all
  (`StartInsideEditRunsUnapproved`), runs an edit nobody approved. Nor does anything look again between reading the
  plan and launching the run: an edit in between leaves a run without an approval in force
  (`EditInsideStartRunsWithdrawn`) or, once approved, with an older plan than the approved one
  (`EditInsideStartRunsOlder`). In every interleaving, at the launch the approval is in force and the plan is the one
  approved last exactly when no plan was stored between its reading and that approval, whichever came first, and no
  withdrawal took effect since (`ExecutesApprovedPlanIff`).
- An edit's withdrawal sets the item ready even while a goroutine is planning it (`EditAroundReplan`). A second
  goroutine can be started exactly if that has happened (`TwoPlannersIff`).
- A planning goroutine that fails to load its item or to record its outcome leaves it in planning: one fault is enough
  (`LoadFaultHangsPlanning`). It hangs exactly when that happened to the last goroutine, and neither the owner's
  cancellation nor an edit opened before has freed it since (`PlanningHangsIff`).
- The cache forgets `path` on a rename if that argument is present, and `old_path` only otherwise, so a written file
  can be lost (`MisnamedRenameDiverges`). A write that takes effect and whose reply is lost with an empty error text, as
  that of a timeout can be, leaves the old content in the cache, and writing that again is skipped
  (`LostWriteDiverges`). The cache is faithful exactly when `path`, if given, repeats `old_path`, and no call takes
  effect and is reported as failed with an empty error (`CacheFaithfulIff`).
- Hunks three to six equal lines apart can overlap. Such a diff does not apply, and may count a line twice
  (`NearbyChangesCountTwice`); lines that start with the mark twice are not counted at all (`DoublePlusIsSkipped`).
  A diff patches the old file to the new one exactly when no two differing lines are that close (`PatchesIff`), and
  the counts are exact exactly when as many lines are skipped as are doubled (`CountsExactIff`). `lcsEdits` compares
  line by line at equal positions and is not a longest common subsequence, although its name and comment say so.
- Two runs can each be a regression from the other (`EachRegressesFromTheOther`). On a set of runs every regression
  reverses an improvement exactly when failing stages follow the error count there (`RegressedIsConverseIff`). The
  comment above `compareValidationOutcomes` speaks of diagnostic identities; the verdict uses counts and stages only.
- After a failed write the repair graph may take a route it never declared (`FailedWriteCrashes`, and exactly when:
  `CrashesOnlyOnFailedWrites`).
- The broker makes up to 41 calls. With 41 edits everything is written and the attempt still reports an error
  (`AllWrittenYetExhausted`); when it completes is `CompletesIff`.
- An attempt that crashed or ran out of rounds reports no files, so a regression after it is settled with its changes
  in place (`CrashedAttemptSurvivesRollback`); a write whose reply is lost is not reported either, and survives the
  rollback of a completed repair (`LostWriteSurvivesRollback`). Rollback brings back the start of an attempt exactly
  when no unreported file changed and the reported ones were captured in time (`RollbackRestoresIff`, for sessions
  `RegressionLeavesNoWorseWorkspace`, by outcome of the repair graph `RollbackByOutcome`).
- Rounding can take an averaged confidence below a threshold that every part meets. The attempt then gives up before
  any write and reports a completed repair, as the escalation node sets no `cannot_repair` (`FaintAnalysisCompletes`).
  That cannot happen exactly for averages that respect the threshold (`ThresholdIsDeadIff`), as exact ones do
  (`ExactIsNeverFaint`).
- `MarkDone` is unguarded: a superseded job can become done (`SupersededJobBecomesDone`), from any state exactly when
  a worker is past its second check with it (`SupersededCanBeDoneIff`). Two overlapping enqueues retire each other
  (`OverlappingEnqueuesRetireBoth`); without a newer job, a live job can be retired exactly while another enqueue's
  supersede step is outstanding (`SupersededOnlyByOverlap`).

## Model

| member | source | states |
|---|---|---|
| PlanGraph.OrderExcludesCycles | backend/internal/handlers/task_handlers.go:716-743 | a finishing order in which every step comes after its dependencies leaves no room for a cycle: the soundness half of "no cycle found" |
| PlanGraph.StuckSetHasCycle | backend/internal/execution/orchestrator.go:553-601 | a non-empty set of steps each waiting for another of the set contains a dependency cycle: what a pass without progress means |
| CycleSearch.ColourSearch.Lazy | backend/internal/handlers/task_handlers.go:717-721 | the Go colouring that starts empty represents all steps as unvisited |
| CycleSearch.ColourSearch.Prefilled | agent/src/planning/validator.py:56-58 | so does the Python colouring that is filled beforehand |
| CycleSearch.ColourSearch.Dfs | backend/internal/handlers/task_handlers.go:723-739 | a reported cycle exists; otherwise the step and all below it are finished in dependency order and the grey path is as before |
| CycleSearch.SearchFrom | backend/internal/handlers/task_handlers.go:741-745 | whatever order steps are visited in, a cycle is reported exactly when the dependencies have one |
| PlanValidation.FirstMissing | backend/internal/handlers/task_handlers.go:637-643 | none is reported exactly when all required fields are present, and a reported one is required and absent |
| PlanValidation.CollectSteps | backend/internal/handlers/task_handlers.go:645-699 | succeeds exactly on well-shaped steps with distinct ids, and an error names a defect the steps really have |
| PlanValidation.FirstUnknownReference | backend/internal/handlers/task_handlers.go:701-708 | none exactly when every reference is to a step of the plan |
| PlanValidation.ValidatePlanBody | backend/internal/handlers/task_handlers.go:627-748 | accepts exactly the well-formed, acyclic plans; the cycle error exactly for well-formed cyclic ones; every other error is justified by the body |
| PlanValidation.CheckIdentifiers | agent/src/planning/validator.py:32-42 | errors exactly for repeated ids, warnings exactly for repeated stable ids |
| PlanValidation.CheckReferences | agent/src/planning/validator.py:44-50 | adds errors exactly when some reference is unknown, and only after those before |
| PlanValidation.Validate | agent/src/planning/validator.py:23-91 | valid exactly for non-empty plans with distinct ids, known references and no cycle; warnings about stable ids exactly when they repeat |
| PlanValidation.ValidatorsAgree | backend/internal/handlers/task_handlers.go:627-748 | the Go verdict on the encoded plan equals the Python verdict on the plan, up to empty ids, which only Go refuses |
| StepSchedule.StableReferencesKnown | backend/internal/execution/orchestrator.go:542-551 | dependencies translated to stable ids always name steps of the plan |
| StepSchedule.OneObject | backend/internal/execution/orchestrator.go:535-540 | an item of the steps array that is an object is a step, and any other is skipped |
| StepSchedule.ObjectsConcat | backend/internal/execution/orchestrator.go:535-540 | items are collected one by one and in order |
| Json.OneString | backend/internal/execution/orchestrator.go:621-635 | an item of a string list that is a string is kept, and any other is dropped |
| Json.StringsConcat | backend/internal/execution/orchestrator.go:621-635 | items are taken one by one and in order |
| StepSchedule.RunPass | backend/internal/execution/orchestrator.go:559-595 | one pass places, in plan order, exactly the waiting steps whose dependencies were placed before they are reached |
| StepSchedule.SortSteps | backend/internal/execution/orchestrator.go:553-601 | terminates; succeeds exactly when stable ids are distinct and acyclic, and then yields the schedule |
| StepSchedule.ScheduleRespectsDependencies | backend/internal/execution/orchestrator.go:553-601 | in a schedule every dependency that was resolved, that is, on a step whose stable id is a string, comes earlier |
| StepSchedule.StuckIsUnschedulable | backend/internal/execution/orchestrator.go:596-598 | a pass without progress happens only for repeated or cyclic stable ids |
| StepSchedule.CompleteIsSchedule | backend/internal/execution/orchestrator.go:553-601 | when all are placed the order is a permutation of the plan sorted by earliest possible pass, then plan position |
| StepSchedule.ScheduledIsAcyclic | backend/internal/execution/orchestrator.go:553-601 | an order exists only for distinct, acyclic stable ids |
| StepSchedule.ResolveOrderedSteps | backend/internal/execution/orchestrator.go:524-602 | fails exactly for a body without steps or with unschedulable ones, and otherwise returns the plan's steps in schedule order with their resolved dependencies |
| ScheduleProperties.ScheduleUnique | backend/internal/execution/orchestrator.go:553-601 | a plan has one schedule: the order is determined by the dependencies |
| ScheduleProperties.OrderedPlanUnchanged | backend/internal/execution/orchestrator.go:553-601 | the schedule is the plan itself exactly when the plan already lists dependencies first |
| ScheduleProperties.StableCycleStemsFromIds | backend/internal/execution/orchestrator.go:542-551 | with distinct stable ids, a cycle among them comes from a cycle among ids |
| ScheduleProperties.AcceptedPlanSchedules | backend/internal/handlers/task_handlers.go:627-748 | a plan the gate accepts can be scheduled exactly when its stable ids are distinct |
| ScheduleProperties.AcceptedPlanMayFail | backend/internal/execution/orchestrator.go:596-598 | a plan without any dependency that the gate accepts and the executor refuses |
| PlanExecution.FindBlockingDep | backend/internal/execution/orchestrator.go:489-500 | the first listed dependency that deviated or failed |
| PlanExecution.BlockingDepIsBlocked | backend/internal/execution/orchestrator.go:489-500 | a reported blocker is a blocked dependency; for named dependencies, none reported means none blocked |
| PlanExecution.AppendUnique | backend/internal/execution/orchestrator.go:637-649 | appends the new items in order of first occurrence |
| PlanExecution.AppendedUniqueMeaning | backend/internal/execution/orchestrator.go:637-649 | the old list is a prefix, the members are exactly those of both, and nothing repeats |
| PlanExecution.Tally | backend/internal/execution/orchestrator.go:281-301 | the three counts in terms of blocked steps and skipped rows |
| PlanExecution.Run | backend/internal/execution/orchestrator.go:91-384 | nothing happens if the execution cannot be loaded; the run fails without touching steps exactly when the plan cannot be resolved or the context is invalid; otherwise rows, checkpoints, artifacts, status and counts are those of the fold over the schedule, whatever the status before and whichever status update fails |
| PlanExecution.RunStep | backend/internal/execution/orchestrator.go:123-278 | one step: cancellation, blocked or unsigned steps, the stream and its verdict, with every status update and row insertion possibly failing |
| PlanExecution.RunLoop | backend/internal/execution/orchestrator.go:122-363 | the loop's rows, checkpoints and final status for every sequence of cancellations, stream results and failing statements |
| ExecutionOutcomes.FinishesIff | backend/internal/execution/orchestrator.go:132-232 | when a step is handed to the agent, when the run goes on after it, and how it stops otherwise, by the step's input and the first blocked dependency |
| ExecutionOutcomes.FinishedStepOutcome | backend/internal/execution/orchestrator.go:233-263 | a step whose stream ends blocks its dependents unless the deviation text is empty or begins with `already_satisfied:`; its row is failed exactly for `execution_error:`, completed exactly in those two cases, and deviated otherwise |
| ExecutionOutcomes.SkippedStepOutcome | backend/internal/execution/orchestrator.go:138-155 | a skipped step blocks its own dependents, is not handed to the agent and touches nothing |
| ExecutionOutcomes.FailingStepOutcome | backend/internal/execution/orchestrator.go:156-232 | what the step at which a run fails leaves behind |
| ExecutionOutcomes.ArtifactsAreTouched | backend/internal/execution/orchestrator.go:265-268 | after every step the run lists each file that finished steps modified, created or deleted once, under what was done to it, and no other |
| ExecutionOutcomes.FinishedStepCheckpoint | backend/internal/execution/orchestrator.go:270-272 | a finished step's checkpoint holds all files touched so far |
| ExecutionOutcomes.FinalStatusMeaning | backend/internal/execution/orchestrator.go:277-363 | a run that reaches its end is completed exactly if every step was handed to the agent and succeeded |
| ExecutionOutcomes.StoppedStatusMeaning | backend/internal/execution/orchestrator.go:132-232 | a run that stops is cancelled or, if that can be stored, failed, and later steps leave no trace |
| PlanDependencies.ResolvedIff | backend/internal/execution/orchestrator.go:542-551 | a dependency of an accepted plan is kept exactly if the stable id of its step is a string |
| PlanDependencies.TextPrerequisitesComeFirst | backend/internal/execution/orchestrator.go:553-601 | if prerequisites have strings as stable ids, every step is scheduled after all that its `depends_on` names |
| PlanDependencies.SameGraph | backend/internal/execution/orchestrator.go:553-601 | the scheduled steps have the dependency graph of the submitted body |
| ExecutionProperties.FinishedRunBlocksClosure | backend/internal/execution/orchestrator.go:122-301 | for steps in the order of their `depends_on` whose prerequisites have stable ids: after the loop exactly those are blocked that deviated or transitively depend on one that did |
| ExecutionProperties.NamedCallsAreInOrder | backend/internal/execution/orchestrator.go:134-216 | and the agent is called for one only after everything it transitively depends on completed |
| ExecutionProperties.UnnamedDependencyLeaks | backend/internal/execution/orchestrator.go:489-500 | if a step waits for one whose stable id is empty or no string, a run breaks both |
| PlanDependencies.AcceptedPlanLeaks | backend/internal/handlers/task_handlers.go:671-677 | for any stable id that is empty or no string: a plan the gate accepts and the executor schedules, and a run in which the dependent of a deviated step is executed |
| PlanDependencies.DependentRunsFirst | backend/internal/execution/orchestrator.go:571-588 | for any stable id that is no string, such as a number: the schedule puts the dependent first |
| PlanDependencies.DependenciesRespectedIff | backend/internal/execution/orchestrator.go:122-301 | for every accepted and schedulable body: prerequisites come first if they have stable ids; in all runs blocked steps are the closure under `depends_on` exactly when they do, and the agent is called only after all transitive prerequisites completed exactly when they do |
| ExecutionProperties.BlockedCount | backend/internal/execution/orchestrator.go:281-301 | blocked steps are the deviated ones, the skipped rows, and the skips whose row could not be stored |
| ExecutionProperties.DeviatedStepsMeaning | backend/internal/execution/orchestrator.go:281-301 | the reported deviated count is never negative and, with the rows listed, the three counts add up to the plan |
| DiversitySelection.DiversitySelector.Select | agent/src/core/diversity_selector.py:28-47 | the chunks returned are chunks of the list, each once and in its order, within both caps, and for a ranking of non-negative scores no other such choice has a higher sum of scores |
| DiversitySelection.GreedyChunks | agent/src/core/diversity_selector.py:30-38 | the same of the greedy choice; every choice of chunks within the caps is compared |
| DiversitySelection.GreedyIsFeasible | agent/src/core/diversity_selector.py:30-38 | at most `final_k` chunks and at most `max_per_file` of every file |
| DiversitySelection.GreedyStaysAhead | agent/src/core/diversity_selector.py:30-38 | on every prefix of the ranking at least as many chunks as any selection within the caps |
| DiversitySelection.GreedyIsOptimal | agent/src/core/diversity_selector.py:30-38 | for scores in non-increasing, non-negative order, the maximum total score of all selections within the caps |
| DiversitySelection.RescoredRange | agent/src/core/reranker.py:62-81 | the combined score lies between 0 and 1 |
| DiversitySelection.AllRescoredAt | agent/src/core/reranker.py:49-51 | each chunk is rescored in its place |
| DiversitySelection.RescoredWeights | agent/src/core/reranker.py:62-81 | a score in range counts seven tenths and the share of the question's words three; scores out of range are clamped, and nothing else of the chunk changes |
| DiversitySelection.SortSorts | agent/src/core/reranker.py:51-52 | the ranking is in descending order and has the same chunks |
| DiversitySelection.SortIsStable | agent/src/core/reranker.py:51-52 | chunks of equal score keep their order |
| DiversitySelection.Rerank | agent/src/core/reranker.py:41-60 | the rescored chunks, descending, stable, with scores in range |
| DiversitySelection.SelectBest | agent/src/core/retrieval_engine.py:142-147 | rerank, trim, select: the chunks returned are distinct positions of the trimmed ranking within the caps, and have the maximum sum of scores among all such choices, for every candidate list |
| Chunking.SplitChunk | agent/src/ingestion/chunker.py:53-144 | the pieces are those of the greedy cuts: each cut comes as late as the limit allows, oversized lines stand alone |
| Chunking.ProcessChunks | agent/src/ingestion/chunker.py:29-50 | every chunk turns into its own stretch of the result, and the stretches follow each other without gaps in the order of the input: none for blank chunks, the chunk with its count if it is small, and its split if it is large |
| Chunking.SmallChunksStay | agent/src/ingestion/chunker.py:37-48 | non-blank chunks within the limit are all in the result, with their counts and in order |
| Chunking.PieceContent | agent/src/ingestion/chunker.py:70-144 | each piece is a block of its chunk's file holding its lines joined, or the one oversized line cut down, and the first alone keeps the name |
| Chunking.GreedySplitUnique | agent/src/ingestion/chunker.py:62-144 | lines and limit determine the cuts: the split is the greedy one and no other |
| Chunking.PiecesPartitionLines | agent/src/ingestion/chunker.py:62-144 | the line ranges of the pieces follow each other from the chunk's first to its last line |
| Chunking.EachLineOnce | agent/src/ingestion/chunker.py:62-144 | every line number of the chunk lies in exactly one piece |
| Chunking.PiecesWithinLimit | agent/src/ingestion/chunker.py:62-144 | every piece carries its token count, which is within the limit if truncation fits |
| Chunking.PiecesRejoin | agent/src/ingestion/chunker.py:62-144 | without oversized lines the joined pieces are the joined lines |
| Chunking.GreedyReachesFurther | agent/src/ingestion/chunker.py:62-144 | after any number of pieces the greedy split has covered at least as many lines as any other |
| Chunking.GreedyUsesFewestPieces | agent/src/ingestion/chunker.py:62-144 | no contiguous split into acceptable pieces has fewer pieces, for token counts monotone in the line range |
| UnifiedDiff.SplitLinesInverse | backend/internal/execution/diff.go:55-65 | splitting and joining again gives back the text up to one final newline |
| UnifiedDiff.LcsEdits | backend/internal/execution/diff.go:161-184 | the script pairs equal positions, old before new where they differ, then the rest of the longer file |
| UnifiedDiff.ScriptProjects | backend/internal/execution/diff.go:161-184 | one side of the script is all old lines in order, the other all new lines |
| UnifiedDiff.ComputeHunks | backend/internal/execution/diff.go:69-151 | the loop advances and its windows open one after the other at the next change, up to the end of the script |
| UnifiedDiff.WindowsUnique | backend/internal/execution/diff.go:69-151 | the script determines the windows, so the properties below are about the hunks produced |
| DiffProperties.EveryChangeShown | backend/internal/execution/diff.go:69-151 | every changed line lies in some hunk |
| DiffProperties.HunkMatchesBothFiles | backend/internal/execution/diff.go:105-147 | the header's ranges are the slices of the old and the new file that the body shows |
| DiffExactness.ComputeUnifiedDiff | backend/internal/execution/diff.go:19-48 | the hunks of a pair of files; they patch one to the other exactly when no differing lines are too close; each count plus the lines it skips is the number of lines really changed plus those counted twice |
| DiffProperties.CountedMeaning | backend/internal/execution/diff.go:31-41 | counted are insertions not starting with `++` and deletions not starting with `--` |
| DiffGaps.DisjointIff | backend/internal/execution/diff.go:69-151 | the windows of a script are disjoint exactly when it has no run of four to six unchanged edits between changes, nor one of three that is not followed by the last edit alone |
| DiffExactness.OverlappingMeaning | backend/internal/execution/diff.go:69-184 | the script of two files has such a run exactly when the files have such a run of equal lines between differing ones |
| DiffExactness.ReportedCount | backend/internal/execution/diff.go:31-41 | from the two files alone: the count is the lines really changed, without those starting with the mark twice, plus those right after a gap of three that are counted in two hunks |
| DiffExactness.CountsExactIff | backend/internal/execution/diff.go:31-41 | a count is exact exactly when as many lines are skipped as are doubled, and not below the truth exactly when no more are |
| DiffExactness.DoublePlusIsSkipped | backend/internal/execution/diff.go:31-41 | a file that gains the one line `++x` is reported to gain none |
| DiffExactness.NearbyChangesCountTwice | backend/internal/execution/diff.go:69-151 | two changed lines with three equal ones between them: three removed lines are reported instead of two, and the hunks do not apply |
| DiffProperties.DiffPatchesOldToNew | backend/internal/execution/diff.go:69-151 | if no windows overlap, applying the hunks to the old file gives the new one |
| DiffExactness.PatchesIff | backend/internal/execution/diff.go:69-184 | applying the hunks to the old file gives the new one exactly when the two files have no differing lines four to six equal lines apart, or three apart unless a single edit ends the script there |
| WorkItems.WorkItemRepository.Transition | backend/internal/repository/work_item_repository.go:311-343 | changes the status of one item exactly when it is in an allowed one, and says so |
| WorkItems.WorkItemRepository.StartPlanning | backend/internal/repository/work_item_repository.go:205-208 | leaves draft only |
| WorkItems.WorkItemRepository.MarkPlanReady | backend/internal/repository/work_item_repository.go:211-214 | leaves planning only |
| WorkItems.WorkItemRepository.MarkPlanningFailed | backend/internal/repository/work_item_repository.go:217-224 | leaves planning only, keeping the message |
| WorkItems.WorkItemRepository.Approve | backend/internal/repository/work_item_repository.go:229-246 | the gate: approves exactly a ready plan of the own organisation |
| WorkItems.WorkItemRepository.ResetForReplan | backend/internal/repository/work_item_repository.go:250-272 | withdraws approval and returns to planning from ready or failed planning |
| WorkItems.WorkItemRepository.Cancel | backend/internal/repository/work_item_repository.go:275-295 | refuses done, failed and cancelled items only |
| WorkItems.WorkItemRepository.ResetApprovalAfterEdit | backend/internal/repository/work_item_repository.go:299-308 | withdraws approval whatever the status |
| WorkItems.WorkItemRepository.TransitionToExecuting | backend/internal/repository/work_item_repository.go:65-72 | starts from an approved plan only |
| WorkItems.WorkItemRepository.TransitionToRepairing | backend/internal/repository/work_item_repository.go:76-83 | starts from executing only |
| WorkItems.WorkItemRepository.TransitionToDone | backend/internal/repository/work_item_repository.go:87-94 | ends executing or repairing and clears the error |
| WorkItems.WorkItemRepository.TransitionToPublishing | backend/internal/repository/work_item_repository.go:98-105 | starts from done only |
| WorkItems.WorkItemRepository.TransitionToFailed | backend/internal/repository/work_item_repository.go:109-116 | ends executing or repairing with a message |
| WorkItems.WorkItemRepository.CreatePlan | backend/internal/repository/work_item_repository.go:349-404 | one transaction: older plans inactive, the new one numbered above all and active |
| WorkItems.WorkItemRepository.GetActivePlan | backend/internal/repository/work_item_repository.go:407-415 | the first active plan, if any |
| WorkItems.ItemsAreIndependent | backend/internal/repository/work_item_repository.go:205-343 | in every run of statements an item is the result of its own updates alone |
| WorkItems.ApprovedIffInForce | backend/internal/repository/work_item_repository.go:229-308 | in every run an item is approved exactly when its last effective decision was an approval, and its status agrees |
| WorkItems.NothingRunsUnapproved | backend/internal/repository/work_item_repository.go:63-116 | an item approved, executing, repairing, done, failed or publishing has an approval in force |
| WorkItems.TerminalUntilReset | backend/internal/repository/work_item_repository.go:275-308 | failed and cancelled are final but for the unguarded reset |
| WorkItems.NewPlanIsTheActiveOne | backend/internal/repository/work_item_repository.go:349-404 | from any table, exactly one active plan afterwards, with a version above all others, and older bodies unchanged |
| WorkItems.ActivePlanIsNewest | backend/internal/repository/work_item_repository.go:407-415 | what is read as active is the newest plan |
| WorkItems.EveryTableIsVersioned | backend/internal/repository/work_item_repository.go:349-404 | in every run versions are 1 to n and exactly the last is active |
| PlanApproval.TaskHandlers.UpdatePlan | backend/internal/handlers/task_handlers.go:220-266 | every reply and every change for every item, body and fault, including the tolerated failed reset |
| PlanApproval.TaskHandlers.ApproveTask | backend/internal/handlers/task_handlers.go:272-291 | succeeds exactly when the repository approves |
| PlanApproval.TaskHandlers.Replan | backend/internal/handlers/task_handlers.go:296-340 | succeeds exactly for an indexed repository and a ready or failed plan |
| PlanApproval.TaskHandlers.CancelTask | backend/internal/handlers/task_handlers.go:345-360 | succeeds exactly when the repository cancels |
| PlanApproval.TaskHandlers.RunPlanningStep | backend/internal/handlers/task_handlers.go:428-592 | the next effect of the planning goroutine, for every agent reply and fault, a token that cannot be signed included; only accepted bodies get persisted |
| PlanApproval.ExecutionHandlers.StartExecution | backend/internal/handlers/execution_handlers.go:72-146 | all gates in order, and the plan the execution runs on |
| PlanApproval.EveryRunIsSafe | backend/internal/handlers/task_handlers.go:220-592 | the invariant of every order of whole user requests, single planning steps and later transitions |
| PlanApproval.AtMostOnePlanner | backend/internal/handlers/task_handlers.go:428-592 | while user requests do not overlap: never two planning goroutines, and one only while planning or cancelled |
| PlanApproval.ExecutesApprovedPlan | backend/internal/handlers/execution_handlers.go:72-146 | while user requests do not overlap: every execution runs a valid plan, and the approved one exactly when no reset since was lost |
| PlanApproval.ApprovedItemHasPlan | backend/internal/handlers/execution_handlers.go:103-107 | the missing-plan reply cannot occur |
| PlanApproval.ReliableResetsProtectApproval | backend/internal/handlers/task_handlers.go:258-261 | while user requests do not overlap and no reset fails, every execution runs the approved plan |
| PlanApproval.LostResetRunsUnapprovedPlan | backend/internal/handlers/task_handlers.go:258-261 | a run in which one failed reset executes an edit nobody approved |
| PlanInterleaving.EveryInterleavingIsSafe | backend/internal/handlers/task_handlers.go:220-592 | the invariant of every interleaving of the statements of edits and execution starts, other requests, planning steps and later transitions |
| PlanInterleaving.ExecutesApprovedPlanIff | backend/internal/handlers/execution_handlers.go:72-146 | in every interleaving the plan launched is acceptable, and at the launch an approval is in force and is that of this plan exactly when no plan was stored between its reading and the last approval and no withdrawal took effect since |
| PlanInterleaving.AtomicRunsAreInterleavings | backend/internal/handlers/task_handlers.go:220-360 | every run of whole requests is such an interleaving: item, goroutines and executed plans agree |
| PlanInterleaving.StartInsideEditRunsUnapproved | backend/internal/handlers/task_handlers.go:249-261 | a run without any failure in which an execution started inside an edit runs the unapproved edit |
| PlanInterleaving.EditInsideStartRunsWithdrawn | backend/internal/handlers/execution_handlers.go:104-143 | a run in which an edit between reading and launching leaves an execution whose approval was withdrawn |
| PlanInterleaving.EditInsideStartRunsOlder | backend/internal/handlers/execution_handlers.go:104-143 | and one in which that edit was approved and the item executes the plan before it |
| PlanInterleaving.TwoPlannersIff | backend/internal/handlers/task_handlers.go:296-340 | within a run a second planning goroutine can be started exactly if an edit's reset took effect on an item being planned |
| PlanInterleaving.EditAroundReplan | backend/internal/handlers/task_handlers.go:258-261 | a run in which that happens |
| PlanInterleaving.PlanningHangsIff | backend/internal/handlers/task_handlers.go:428-592 | after any interleaving the item is in planning without a goroutine exactly when the last one gave up at loading or at recording its outcome, and neither the owner's cancellation nor an edit under way has freed it since |
| PlanInterleaving.LoadFaultHangsPlanning | backend/internal/handlers/task_handlers.go:436-440 | the run in which a new item's goroutine cannot load it |
| IngestionJobs.IngestionJobRepository.MarkRunning | backend/internal/repository/ingestion_job_repository.go:105-130 | the claim: won exactly by the first on a queued job, and told apart from being superseded |
| IngestionJobs.IngestionJobRepository.MarkDone | backend/internal/repository/ingestion_job_repository.go:152-162 | sets done whatever the status was |
| IngestionJobs.IngestionJobRepository.MarkFailed | backend/internal/repository/ingestion_job_repository.go:165-172 | sets failed whatever the status was |
| IngestionJobs.IngestionJobRepository.SupersedeOlderJobs | backend/internal/repository/ingestion_job_repository.go:177-189 | retires exactly the other live jobs of the repository and counts them |
| IngestionJobs.JobWorker.ProcessJobStep | backend/internal/ingestion/job_worker.go:152-319 | the next effect of a worker, in the source's order: load, claim, prepare and check, ingest, finish or fail |
| IngestionJobs.QueuedJobIsWorkedOff | backend/internal/ingestion/job_worker.go:152-319 | an undisturbed worker claims a queued job and leaves it done, failed, or running if its last update fails, depending on which calls succeed, and is free again; other jobs are untouched |
| IngestionJobs.SupersededJobIsLeft | backend/internal/ingestion/job_worker.go:152-249 | a worker that finds its job superseded leaves the table as it is |
| IngestionJobs.JobWorker.EnqueueForRepo | backend/internal/ingestion/job_worker.go:343-365 | undisturbed, the new job is afterwards the only live one of its repository |
| IngestionJobs.JobWorker.Turn | backend/internal/ingestion/job_worker.go:119-149 | an idle worker takes the oldest job off the queue; a busy one does its next step |
| IngestionJobs.EveryRunIsSound | backend/internal/ingestion/job_worker.go:152-365 | the invariant of every interleaving of enqueuers and workers with faults anywhere |
| IngestionJobs.OneCurrentJobPerRepo | backend/internal/ingestion/job_worker.go:343-365 | never two queued or running jobs of a repository whose supersede steps both succeeded |
| IngestionJobs.ClaimedByOneWorker | backend/internal/repository/ingestion_job_repository.go:105-130 | a job is claimed at most once and no two workers are ever at work on it |
| IngestionJobs.DoneOnlyByClearedClaimer | backend/internal/ingestion/job_worker.go:240-317 | a job becomes done only by its claimer after the second check, from running or superseded |
| IngestionJobs.ClearedWhileRunning | backend/internal/ingestion/job_worker.go:240-249 | the second check passes only while the job is running |
| IngestionJobs.SupersededStays | backend/internal/ingestion/job_worker.go:152-185 | a job superseded unclaimed is never claimed, and stays superseded unless its own push failed |
| IngestionJobs.NewestIsNotSuperseded | backend/internal/ingestion/job_worker.go:343-365 | once no other supersede step is outstanding, a job is not superseded before a newer one is created |
| IngestionJobs.SupersededOnlyByOverlap | backend/internal/ingestion/job_worker.go:343-365 | without a newer job, a live job can become superseded exactly when another enqueue's supersede step is outstanding |
| IngestionJobs.OverlappingEnqueuesRetireBoth | backend/internal/ingestion/job_worker.go:343-365 | a run in which two enqueues leave no live job |
| IngestionJobs.SupersededJobBecomesDone | backend/internal/repository/ingestion_job_repository.go:152-162 | a run in which a superseded job ends as done |
| IngestionJobs.SupersededCanBeDoneIff | backend/internal/repository/ingestion_job_repository.go:152-162 | from any sound state a superseded job can still become done exactly when a worker is past its second check with it |
| EventHub.Handlers.Publish | backend/internal/repair/handlers.go:213-256 | below the cap the event becomes the last of the session's log, behind all others; each channel of the session that has room gets it last; other sessions see nothing |
| EventHub.Handlers.AddSubscriber | backend/internal/repair/handlers.go:259-266 | an open, empty channel is listed |
| EventHub.Handlers.RemoveSubscriber | backend/internal/publishing/handlers.go:322-336 | the channel is unlisted and closed, and every listed channel stays open |
| EventHub.EveryRunIsSound | backend/internal/repair/handlers.go:165-284 | the invariant of every interleaving of append, broadcast, register, snapshot, delivery, removal and cleanup, for any caps |
| EventHub.NeverSendsToClosed | backend/internal/repair/handlers.go:247-284 | no interleaving sends to a closed channel |
| EventHub.EventIsLostIff | backend/internal/publishing/handlers.go:225-310 | how often a connected subscriber that has read everything got a published event; it got none exactly when the event was not in the replay it was given and found its own channel full or was broadcast before it registered |
| EventHub.DuplicatesOnlyAtTheSeam | backend/internal/publishing/handlers.go:225-310 | in every run a second copy means appended before the snapshot and broadcast after the registration, and nothing unpublished arrives |
| EventHub.ReplayThenBroadcasts | backend/internal/repair/handlers.go:178-206 | a client reads the replay and then its broadcasts in order, without gaps |
| EventHub.EveryRunKeepsOrder | backend/internal/publishing/handlers.go:276-310 | in every run the log and each replay hold events in the order in which they were published, and each channel in the order in which they were sent to it |
| StepAgent.Execute | backend/internal/handlers/execution_handlers.go:380-496 | the workspace after a tool call and what the agent is told, for every failure on the way, with or without effect; unknown tools and paths without a file are refused |
| StepAgent.NodeReason | agent/src/execution/nodes.py:145-320 | the abort tests in order and the retry loop: the first parsable reply decides |
| StepAgent.FirstParsedMeaning | agent/src/execution/nodes.py:251-320 | the first of three replies that can be parsed decides, and without one the step ends in an error |
| StepAgent.RouteMeaning | agent/src/execution/nodes.py:586-614 | which node each action leads to; an unknown action completes the step |
| StepAgent.RouteAfterResultMeaning | agent/src/execution/nodes.py:617-664 | converged steps are satisfied, a call that failed with a message completes the step, and everything else is reasoned about |
| StepAgent.NodeCallTool | agent/src/execution/nodes.py:325-472 | which calls stay in the cache, what it remembers after the others, and the progress counter |
| StepAgent.ToolNodeProgress | agent/src/execution/nodes.py:379-460 | writing again what was last written counts as no progress and as convergence; a successful write of something else starts the count anew |
| StepAgent.EveryRunEnds | agent/src/execution/nodes.py:160-212 | every run has ended after 39 node executions |
| StepAgent.SomeRunTakesAllNodes | agent/src/execution/nodes.py:160-212 | some run of the nodes needs all 39, when the graph is run without a limit of its own |
| StepAgent.RecursionLimitCutsRuns | agent/src/execution/pipeline.py:86-92 | under the limit of 30 node executions that run is cut off before its end |
| StepAgent.NeverFiveAlike | agent/src/execution/nodes.py:101-115 | no run records five identical requests in a row |
| StepAgent.ReasonAbortsOnlyOnRepetition | agent/src/execution/nodes.py:160-212 | the stall test never fires, and within 30 nodes neither does the iteration limit |
| StepAgent.RoutesAreDeclared | agent/src/execution/graph.py:40-99 | every route taken in any run is an edge of the graph |
| WriteCache.ToolNodeTakesCachedStep | agent/src/execution/nodes.py:345-472 | the refinement below is about the step the tool node takes |
| WriteCache.RunsStayTogether | agent/src/execution/nodes.py:355-472 | for an injective hash the cached agent leaves the same workspace and reads the same contents as one that sends every call, in every run of a step with well-named renames and without silently lost replies |
| WriteCache.CacheFaithfulIff | agent/src/execution/nodes.py:345-472 | that holds for all runs of a step with a given rename exactly when its `path`, if any, is its `old_path`, and no call takes effect and is reported as failed with an empty error |
| WriteCache.MisnamedRenameDiverges | agent/src/execution/nodes.py:460-470 | writing, renaming under another `path` and writing again loses the file |
| WriteCache.LostWriteDiverges | agent/src/execution/tool_client.py:87-92 | writing, writing something else whose reply is lost, and writing the first again leaves the second in place |
| RepairGraph.RunWithToolBroker | agent/src/repair/pipeline.py:139-241 | at most 41 rounds; outcome and calls are those of the attempt |
| RepairGraph.RunStream | agent/src/repair/pipeline.py:147-167 | one run of the graph up to its next pause, its end or an undeclared route |
| RepairAttempts.ThresholdIsDeadIff | agent/src/repair/nodes.py:413-479 | the threshold test after an analysis that was kept never fires, for all replies, exactly when the default confidence meets the threshold and averaging never falls below what all parts meet |
| RepairAttempts.ExactIsNeverFaint | agent/src/repair/nodes.py:413-479 | which is so in exact arithmetic |
| RepairAttempts.FaintAnalysisCompletes | agent/src/repair/nodes.py:558-568 | ten analysed groups of confidence 0.3 whose mean rounds to less: no call, and a completed repair is reported |
| RepairAttempts.EscalatedAttempt | agent/src/repair/graph.py:125-153 | exactly for the escalating replies the attempt makes its gathering calls and nothing else, and reports cannot_repair, or, for a faint analysis, a completed repair |
| RepairAttempts.AnalysisMeaning | agent/src/repair/nodes.py:413-479 | an analysis gives up exactly if it names groups and none is a code error of workable scope and sufficient confidence; otherwise its confidence is the mean of those that are, or a half without groups |
| RepairAttempts.ValidMeaning | agent/src/repair/nodes.py:617-632 | the plan keeps exactly the edits with a path and a content |
| RepairAttempts.ValidConcat | agent/src/repair/nodes.py:617-632 | one at a time and in order |
| RepairAttempts.PlannedConfidence | agent/src/repair/nodes.py:492-555 | writing starts at the strategy's confidence, if it has one, and at the analysis' otherwise |
| RepairAttempts.WritingAttempt | agent/src/repair/pipeline.py:139-241 | the calls and the outcome of every other attempt in closed form |
| RepairAttempts.CallsAreBounded | agent/src/repair/nodes.py:220-295 | at most 7 gathering calls and 41 calls in all |
| RepairAttempts.GatherCallIs | agent/src/repair/nodes.py:220-295 | the k-th gathering call is the one the k-th reply asks for, with its paths made relative |
| RepairAttempts.RelativeMeaning | agent/src/repair/nodes.py:263-285 | the mount prefix is removed once, and the mount itself becomes the workspace directory |
| RepairAttempts.GivesUpIff | agent/src/repair/nodes.py:678-731 | only the number of failed writes matters: for any lowering function the confidence left is lowered once for each, and writing gives up exactly when one lowering goes below the floor |
| RepairAttempts.ExactLowerings | agent/src/repair/nodes.py:678-731 | in exact arithmetic that is 0.15 less for each failure |
| RepairAttempts.ModifiedMeaning | agent/src/repair/nodes.py:695-708 | the reported files are the distinct paths whose write succeeded |
| RepairAttempts.WriteCallsAt | agent/src/repair/nodes.py:640-673 | the k-th write call is the k-th edit |
| RepairAttempts.CompletesIff | agent/src/repair/pipeline.py:139-241 | an attempt reports a completed repair exactly when its analysis was faint, or it was not escalated, the writes held out and at most 40 calls were needed; in the second case each edit was written once and in order |
| RepairAttempts.AllWrittenYetExhausted | agent/src/repair/pipeline.py:139-241 | any 41 edits are all written without a failure, and the attempt reports an error |
| RepairAttempts.ShortPlansNeverExhaust | agent/src/repair/pipeline.py:139-141 | up to 33 edits always fit |
| RepairAttempts.CrashesOnlyOnFailedWrites | agent/src/repair/graph.py:155-174 | the only undeclared route that can be taken, and exactly when |
| RepairAttempts.FailedWriteCrashes | agent/src/repair/graph.py:155-174 | two edits of which the second fails at low confidence take it |
| RepairRollback.SnapshotBeforeContent | backend/internal/repair/orchestrator.go:455-475 | content and existence of exactly the named files that exist |
| RepairRollback.RunAgentStream | backend/internal/repair/orchestrator.go:507-627 | capture before the first write of each file, interleaved with the tool changes |
| RepairRollback.CollectCheckpoint | backend/internal/repair/orchestrator.go:630-661 | one entry per reported file, with its earlier content and existence |
| RepairRollback.RollbackFromCheckpoint | backend/internal/repair/orchestrator.go:689-725 | created files are deleted, others restored, in order |
| RepairRollback.ReplayRemembers | backend/internal/repair/orchestrator.go:557-575 | however the attempt goes, the capture is of its start and uncaptured files are untouched |
| RepairRollback.LastChangeStays | backend/internal/repair/orchestrator.go:507-627 | each file ends up as the attempt's last change of it leaves it |
| RepairRollback.RollbackRestoresIff | backend/internal/repair/orchestrator.go:689-725 | rollback gives back a workspace exactly when no unreported file differs from it and the reported ones were captured as they were in it, telling created from empty |
| RepairRollback.RollbackRestoresStart | backend/internal/repair/orchestrator.go:557-575 | for reported files that are announced before they change, the attempt's start comes back exactly when no unreported file changed |
| RepairRollback.AttemptAndRollBack | backend/internal/repair/orchestrator.go:389-437 | snapshot, run, checkpoint and rollback together are the identity on the workspace exactly when no unreported file changed, for reported files announced first |
| RepairLoop.CountErrorDiagnostics | backend/internal/repair/orchestrator.go:774-782 | counts diagnostics of error severity only |
| RepairLoop.ErrorsAreCounted | backend/internal/repair/orchestrator.go:774-782 | the count is the number of positions with an error |
| RepairLoop.FailingStages | backend/internal/repair/orchestrator.go:786-794 | exactly the stages with an error |
| RepairLoop.CompareValidationOutcomes | backend/internal/repair/orchestrator.go:865-957 | improved exactly for fewer errors and no newly failing stage, regressed exactly for a newly failing stage or more errors, with the explicit results first |
| RepairLoop.ImprovedIsStrictOrder | backend/internal/repair/orchestrator.go:930-956 | "improved" is irreflexive, asymmetric and transitive |
| RepairLoop.UndoneImprovementRegresses | backend/internal/repair/orchestrator.go:930-956 | going back from an improvement is a regression |
| RepairLoop.RegressedIsConverseIff | backend/internal/repair/orchestrator.go:930-956 | on any set of judged runs every regression reverses an improvement exactly when, throughout the set, a run with no more errors than another fails in no further stage, and exactly when "improved" orders the set linearly |
| RepairLoop.EachRegressesFromTheOther | backend/internal/repair/orchestrator.go:930-956 | two runs each of which regresses from the other |
| RepairLoop.RepairablePaths | backend/internal/repair/policy.go:30-62 | repair is permitted only with an auto-fixable diagnostic, and their files are the ones snapshotted |
| RepairLoop.PathsToFixMeaning | backend/internal/repair/policy.go:30-62 | they are the paths of the diagnostics marked as fixable and of no others |
| RepairLoop.ExecuteAttempt | backend/internal/repair/orchestrator.go:191-351 | one round: every way it can stop and the workspace it leaves |
| RepairLoop.Run | backend/internal/repair/orchestrator.go:123-358 | the session's end, attempts and workspace, for every agent, validation and budget |
| RepairLoop.SessionIsExplained | backend/internal/repair/orchestrator.go:123-358 | every session, by how it ends: what each round was given and left, which round stopped it and why, and the workspace it leaves; only a regression is rolled back |
| RepairLoop.OnlyRegressionIsUndone | backend/internal/repair/orchestrator.go:302-351 | a session that passed, made no difference or could not be classified keeps the workspace its last attempt was validated with; one that was cancelled or ran out keeps what its last attempt reached |
| RepairLoop.PassingSessionKeepsFix | backend/internal/repair/orchestrator.go:304-312 | a whole session whose one attempt passes leaves the file fixed |
| RepairLoop.LaterAttemptsBuildOnImprovement | backend/internal/repair/orchestrator.go:191-358 | at most three attempts, each later one on a workspace validated as improved on the trigger |
| RepairLoop.RegressionLeavesNoWorseWorkspace | backend/internal/repair/orchestrator.go:328-340 | a session that ends in a regression is back at the start of its last attempt exactly when that attempt changed no unreported file and captured the reported ones in time; that start is the initial workspace or one validated as improved |
| RepairSession.EffectsAreDispatch | backend/internal/handlers/execution_handlers.go:380-496 | the file changes of a repair call that takes effect are those of the tool endpoint |
| RepairSession.PerformWrites | backend/internal/handlers/execution_handlers.go:380-496 | each file ends up as the last write that took effect left it |
| RepairSession.RollbackByOutcome | backend/internal/repair/orchestrator.go:328-340 | after a regression: a completed repair whose gathering only read is back at its start exactly when every file it does not report was last written as it had been, so if no unreported write took effect; one that crashed or ran out of rounds is left as it is; one that gave up does not end the session as regressed |
| RepairSession.CrashedAttemptSurvivesRollback | backend/internal/repair/orchestrator.go:618-621 | a whole session settled as regressed with the broken file in place |
| RepairSession.LostWriteSurvivesRollback | agent/src/repair/tool_client.py:101-110 | another: the only write takes effect, its reply is lost, and the completed repair reports no file |
| RepairLoop.ExhaustionMeansSteadyImprovement | backend/internal/repair/orchestrator.go:353-358 | out of attempts means three improvements that did not pass |

## Left out

- HTTP, WebSocket transport, NDJSON framing, tokens, the queue, container and SQL drivers: only the state change of each call is kept, as a parameter that may fail where the code handles a failure.
- Model providers, prompts, embeddings, the tokenizer and hashing: arbitrary inputs or functions; injectivity of the hash and monotone token counts are preconditions where needed.
- JSON text: bodies arrive decoded; a body that does not decode is a case of its own.
- Path aliasing, directory renames and moves onto directories: paths are canonical, and the empty path, which names the workspace directory, is never a file.
- The planning event channel and the execution event channel, which keep one connection per item, are not part of the hub model.
- Sessions other than the one under study only delay each other on the hub's lock; the interleaving model is of one session.
- Context assembly from adjacent chunks: it would add a coverage and a budget bound only.
- Validation stages, publishing steps, installation tokens, question answering, organisations and authentication.
- Diagnostic identities and message normalisation: they are computed for logs and do not enter the verdict.
- DiffExactness.ComputeUnifiedDiff: the textual header with the file name and the rendering of hunk ranges as text are not modelled.
- DiffExactness.PatchesIff: applying a diff is the model's own splice, which takes the header as it is; a hunk with no old or no new lines keeps start 1, where the unified format has 0.
- StepAgent.Execute: a write that stops half way is not modelled: a failed call takes effect or does not. Directory listing and searching return success without content, as they do not change the workspace.
- StepAgent.SomeRunTakesAllNodes: it is about the nodes and routes alone; where the graph is run, the limit of 30 node executions ends that run earlier with an error, which `RecursionLimitCutsRuns` shows.
- PlanApproval.EveryRunIsSafe: a user request is one step there, although nothing in the handlers prevents two from overlapping; so are the lemmas about its runs. `PlanInterleaving` is the model without that restriction, and its runs include these.
- RepairGraph.RunWithToolBroker: the narrowing of diagnostics and the files read while gathering feed prompts only, and are dropped; a malformed reply that raises inside a node is not modelled.
- RepairAttempts.GivesUpIff: confidences are reals, and averaging, lowering and the two limits are arbitrary, so that rounding is covered without modelling floating point; the closed form with 0.15 per failure is for exact arithmetic only.
- RepairAttempts.CompletesIff: its holding condition is the one of `GivesUpIff`, for arbitrary lowering.
- RepairSession.RollbackByOutcome: for a completed repair whose gathering calls change files nothing is said beyond the general condition of `RegressionLeavesNoWorseWorkspace`.
- RepairRollback.RollbackFromCheckpoint: a checkpoint that cannot be stored or read, and single restores that fail, are not modelled.
- RepairLoop.ExecuteAttempt: the checkpoint of an attempt is always stored and found again.
- RepairLoop.Run: session and attempt rows and the work-item transitions at the end are not modelled; validation is an arbitrary input per attempt.
- IngestionJobs.JobWorker.ProcessJobStep: progress counters and the resolved commit do not affect the status and are dropped.
- Chunking.SplitChunk: `splitlines` and the re-encoding of a truncated line are functions the splitter is given.
- DiversitySelection.SelectBest: candidate generation and the metadata filter are inputs, and a negative trim length is not considered.
