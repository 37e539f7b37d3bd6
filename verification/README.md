# Labmate, verified

A Dafny model of the deterministic core of the Labmate agent harness, with proofs of what it keeps whatever the model
replies, the tools return, the clock reads and wherever a process dies. Code that changes state step by step is modelled as
classes and loops proved against specification functions; the theorems are then about those functions, over whole runs.

| file | component |
|---|---|
| `Common.dfy` | options, integer bounds, Python's slice rules, text and its order |
| `GoalTree.dfy` | the goal tree: building it, readiness, the shape that makes it deadlock-free |
| `GoalGraph.dfy` | the graph's nodes and routers as one state machine |
| `GoalGraphRuns.dfy` | its whole runs: termination, honest delivery, attempt limits |
| `GoalGraphAnswers.dfy` | what the workers said against what is stored and what the user is told |
| `GoalGraphCritique.dfy` | plan by plan, exactly when its runs end, dispatch a bounded number of times and stay honest |
| `SkillRegistry.dfy` | owner, callers, restarter and reloader of a skill process, interleaved |
| `Indexer.dfy` | the semantic index against edits, polls and polls that fail part-way |
| `Outbox.dfy` | the transactional outbox against writers and crashes |
| `IterationBudget.dfy`, `LoopDetection.dfy`, `CompletionGuard.dfy` | the guards of the ReAct loop |
| `ReactLoop.dfy`, `ReactLoopRuns.dfy` | the loop itself, its checkpoints, and whole histories with crashes |
| `ReactLoopTrace.dfy` | the loop's variables and decisions, read off the trace of its calls |
| `LoopCheckpoint.dfy` | the stored form of a checkpoint and its reader |
| `CircuitBreaker.dfy` | the MCP lifecycle and its crash-rate bound |
| `Compaction.dfy` | summarising turns behind a watermark |
| `ContextBudget.dfy` | assembling a prompt within a token budget |
| `MessageRepair.dfy` | repairing a message list |
| `ToolNames.dfy` | printing, parsing and displaying hosted tool names |
| `FuzzyMatch.dfy`, `FilePaging.dfy` | the file finder's match, reading a file by pages |
| `Wilson.dfy` | the Wilson interval and the win rule, over exact reals |

How the parts fit: each source step that changes state is a pure function on a state datatype, and the method that takes
the step ensures that its view is that function of the old one. A component with concurrent actors has `Event`, `Enabled`
and `Next`; its theorems quantify over every sequence of enabled events. Where one method is many events there, a lemma says
that it is their sequence (`Indexer.PollIsItsSteps`, `Outbox.PassIsItsSteps`). What such a function computes is tied to the
outside by theorems that do not name it: stored results and answers to what the workers said, futures to the first event that
answers them, vectors to the writers' words, summaries to a fold of replies, the loop's variables and exits to its trace. Model replies, tool outcomes, phrase lists,
clocks and crashes are parameters or events.

Where the code and its documentation disagree, the code is followed:

- The comparison's documentation says five trials are needed for a perfect split to separate; four are
  (`Wilson.FourTrialsSeparate`).
- `check` speaks of "attempts < 3"; the limit is `MAX_GOAL_ATTEMPTS`.
- The routing after verify is documented as unable to loop forever. That pass is bounded, but with critique types configured
  and more than one attempt, or no child below the root, the graph can go round execute, verify and check for ever
  (`GoalGraphCritique.RunsEndExactlyWhen`).
- `check` speaks of sub-intents nested in a chain. `plan` creates every goal directly under the root
  (`services/orchestrator/graph.py:222`, `:236`, `:289`), so its trees are flat, and on those completion stays honest whatever
  the configuration. The model covers nested trees too, as `create_goal` and `check` do; `GoalGraphCritique.DishonestRun` is
  about those alone.
- The loader of server names rejects only `__`; names that end in `_` break the display, a pair `s`, `s_` breaks parsing, and
  the tools of a server with an empty name print bare (`ToolNames.DisplayAgreesExactlyWhen`,
  `ToolNames.RoundTripsExactlyWhen`, `ToolNames.FinalNameRoutesExactlyWhen`).
- `build_context` says "strictly within budget"; the anchor's heading and the blank lines between pieces are budgeted nowhere
  and can overrun it (`ContextBudget.PinnedTextOverruns`, `ContextBudget.BudgetCanBeOverrun`), by no more than
  `ContextBudget.PromptStaysInBudget` says.
- The deadline of the ReAct loop is said to measure total goal time across a restart; it does exactly when the crashes dropped
  none, and they drop what passes between the last saved turn and the next process (`ReactLoopRuns.TotalTimeExactlyWhen`,
  `ReactLoopRuns.LostTimeIsFree`).

## Model

| member | source | states |
|---|---|---|
| GoalTree.GoalStore.CreateGoal | services/orchestrator/types.py:93-114 | creating a goal adds it under its parent and touches nothing else |
| GoalTree.GoalStore.UpdateStatus | services/orchestrator/types.py:117-129 | an update sets the status, and result and error only when given |
| GoalTree.GetReadyGoals | services/orchestrator/types.py:132-141 | exactly the pending goals whose children are all completed, each once, in the order of the tree's dictionary |
| GoalTree.CreatedKeepsTree | services/orchestrator/types.py:93-114 | creating one goal under an existing one keeps a well-founded tree |
| GoalTree.PlantedIsTree | services/orchestrator/types.py:93-114 | a root and any sequence of goals, each created under one that is already there, make such a tree |
| GoalTree.PlanIsFlat | services/orchestrator/graph.py:218-290 | a plan, whose goals are all created under the root, is flat |
| GoalTree.PlantedAsCreated | services/orchestrator/types.py:93-114 | a planted tree is what was asked for: root, then each goal in the order of creation with its own description and parent, children in order, pending, no attempt, result or error |
| GoalGraph.PlantedIsPlanned | services/orchestrator/graph.py:218-290 | so whatever is created in order, the graph enters execute in the state that all run theorems start from |
| GoalTree.DepthUnique | services/orchestrator/types.py:93-114 | in such a tree every goal has one depth below the root |
| GoalTree.DescendantsAreTheOthers | services/orchestrator/graph.py:416-425 | the root's descendants are exactly the other goals |
| GoalTree.SomeGoalReady | services/orchestrator/types.py:132-141 | no deadlock: with a descendant not terminal and none failed, some goal below the root is ready |
| GoalTree.CompletedSubtree | services/orchestrator/types.py:132-141 | when completion is honest at each edge, a completed goal's whole subtree is completed |
| GoalGraph.RecordOutcome | services/orchestrator/graph.py:328-367 | a terminal failure exhausts the goal, a rate-limited one counts against the smaller cap, others count one attempt |
| GoalGraph.ExecuteNode | services/orchestrator/graph.py:299-396 | the pass over all results, with completed markers skipped, equals the fold of the outcomes over tree, markers and artifact |
| GoalGraph.CollectDescendants | services/orchestrator/graph.py:416-425 | the stack loop visits exactly the root's descendants, once each, with their depths |
| GoalGraph.SortVisits | services/orchestrator/graph.py:426-430 | the sort permutes the visits into key order |
| GoalGraph.SortedVisitsAreCheckOrder | services/orchestrator/graph.py:426-431 | the sorted visits list the descendants deepest first, by id within a depth |
| GoalGraph.ChildrenBeforeParents | services/orchestrator/graph.py:426-431 | in that order every child precedes its parent |
| GoalGraph.FailedRetryable | services/orchestrator/graph.py:442-458 | the list of failed goals that may be retried; its first is the first in check order |
| GoalGraph.Gather | services/orchestrator/graph.py:484-500 | results and failures, each in check order |
| GoalGraph.FinalizeRoot | services/orchestrator/graph.py:484-523 | the answer, the root's status and the error are put together as the specification says |
| GoalGraph.CheckNode | services/orchestrator/graph.py:398-523 | walk, sort, and then defer, wait or finalize: the node does what its specification says on the check order |
| GoalGraphRuns.EveryRunEnds | services/orchestrator/graph.py:882-911 | without a live critique gate (or with at most one attempt) no run is longer than a measure of its first state, whatever workers, critic and reviser answer |
| GoalGraphRuns.NeverStuck | services/orchestrator/graph.py:882-911 | whatever the configuration, in every reachable state but END some step is possible |
| GoalGraphRuns.EveryRunDelivers | services/orchestrator/graph.py:475-523 | whatever the configuration, a run that cannot go on is at END with a non-empty answer; the root is COMPLETED iff all others are, FAILED iff some other is, with an error exactly then |
| GoalGraphRuns.FlatStaysHonest | services/orchestrator/graph.py:299-396 | on a flat plan, whatever the configuration, completed goals have completed children in every reachable state |
| GoalGraphRuns.CompletedMeansSubtreeCompleted | services/orchestrator/graph.py:299-396 | so a completed goal's whole subtree is completed: on a flat plan always, on a nested one when the gate is bounded |
| GoalGraphRuns.ApprovalNeverEntered | services/orchestrator/graph.py:571-588 | whatever the configuration, no reachable state is at the approval node, and none holds the status that leads there |
| GoalGraphRuns.DispatchesBounded | services/orchestrator/graph.py:328-360 | when the gate is off or a failed goal is never retried, no goal but the root is dispatched more than max(1, MAX_GOAL_ATTEMPTS) times, and the root never if the gate is off |
| GoalGraphRuns.RetryPolicy | services/orchestrator/graph.py:338-360 | which failures leave a goal retryable, by error class, as an equivalence |
| GoalGraphRuns.AnswerTellsAll | services/orchestrator/graph.py:475-492 | every descendant's result and every failure occurs in the final answer |
| GoalGraphRuns.ChildlessNeverFinalizes | services/orchestrator/graph.py:431-433 | no run from a plan without children ever has an answer, whatever the configuration |
| GoalGraphRuns.AnswersExactlyWhen | services/orchestrator/graph.py:398-523 | some run from a plan is answered if and only if its root has a child |
| GoalGraphRuns.ExecutedIsPass | services/orchestrator/graph.py:326-377 | goal by goal: the ready unmarked goals ran, nothing else moved |
| GoalGraphRuns.ReviseStep | services/orchestrator/graph.py:818-880 | revision rewrites only the answer and keeps delivery honest |
| GoalGraphAnswers.ResultsAreStored | services/orchestrator/graph.py:326-364 | an unmarked goal keeps description, parent and children, has the worker's text as its result, and the same text as its error exactly if the worker failed |
| GoalGraphAnswers.OthersAreKept | services/orchestrator/graph.py:326-333 | a goal that is marked or for which nothing is handed back stays as it was |
| GoalGraphAnswers.SomethingWasSaid | services/orchestrator/graph.py:882-911 | every state of every run is come to by some sequence of handed-back results |
| GoalGraphAnswers.WordsAreRemembered | services/orchestrator/graph.py:326-367 | over any run, whatever is handed back: each goal below the root stores the last word on it that counts (nothing after a success), the last failure as its error, and the description it was created with |
| GoalGraphAnswers.AnswerSaysExactly | services/orchestrator/graph.py:484-523 | the finalized answer is exactly, goal by goal in check order, 80 characters of the description and the last non-blank word, then 40 of each failed goal's description and 50 of its error; the error counts and lists the failed |
| GoalGraphAnswers.AnswerTellsWhatWasSaid | services/orchestrator/graph.py:484-500 | so every last non-blank word and every failure occurs in the answer |
| GoalGraphAnswers.DeliveredExactly | services/orchestrator/graph.py:818-880 | at END the user gets that answer, or the model's revision if the answer may be revised and the revision is not empty; it is also the root's result |
| GoalGraphAnswers.PassClassifies | services/orchestrator/graph.py:365-371 | the artifact of a pass is the last unmarked success that is not empty, failures notwithstanding |
| GoalGraphAnswers.ClassifyExactly | services/orchestrator/graph.py:117-129 | code iff one of eight marks occurs, writing iff none does and more than 200 characters are left after stripping |
| GoalGraphCritique.RunsEndExactlyWhen | services/orchestrator/graph.py:525-569 | plan by plan: its runs end if and only if the critique gate is off, or MAX_GOAL_ATTEMPTS is at most 1 and the root has a child |
| GoalGraphCritique.LoopsForever | services/orchestrator/graph.py:331-332 | otherwise every plan has runs in which a goal is completed, set back to pending and skipped by its marker for any number of turns |
| GoalGraphCritique.SampleIsOfKind | services/orchestrator/graph.py:117-129 | the classifier puts the texts of these runs into the class they stand for |
| GoalGraphCritique.DispatchesBoundedExactlyWhen | services/orchestrator/graph.py:328-360 | plan by plan: there is a bound on how often its goals below the root are dispatched iff its runs end |
| GoalGraphCritique.HonestExactlyWhen | services/orchestrator/graph.py:525-569 | plan by plan: completed goals keep completed children in all its runs iff it is flat, or the gate is off, or a failed goal is never retried |
| GoalGraphCritique.DishonestRun | services/orchestrator/graph.py:525-569 | otherwise, so only on a nested tree, a run in which a parent is completed and its child set back to pending |
| SkillRegistry.SkillProcess.DrainInbox | services/skill_runner/skill_registry.py:30-43 | every open request of the inbox gets the failure, answered ones keep their answer, the inbox is empty |
| SkillRegistry.SkillProcess.CallEnter | services/skill_runner/skill_registry.py:188-208 | a call is turned away when the skill is dead or draining, else counted in flight |
| SkillRegistry.SkillProcess.CallEnqueue | services/skill_runner/skill_registry.py:209-220 | under the lock a READY skill accepts, otherwise the count is taken back |
| SkillRegistry.SkillProcess.CallReturn | services/skill_runner/skill_registry.py:214-228 | the caller leaves and is no longer in flight |
| SkillRegistry.SkillProcess.OwnerOpen | services/skill_runner/skill_registry.py:133-151 | a new session: READY, ready event set, failure counter reset |
| SkillRegistry.SkillProcess.OwnerTake | services/skill_runner/skill_registry.py:152-156 | the oldest message is taken; a restart message ends the session |
| SkillRegistry.SkillProcess.OwnerFinish | services/skill_runner/skill_registry.py:157-166 | the request in service is answered unless it already was |
| SkillRegistry.SkillProcess.OwnerClose | services/skill_runner/skill_registry.py:155-186 | after a restart message the owner backs off |
| SkillRegistry.SkillProcess.OwnerCrash | services/skill_runner/skill_registry.py:173-186 | a crash marks the skill dead, drains the inbox and backs off |
| SkillRegistry.SkillProcess.OwnerCancel | services/skill_runner/skill_registry.py:167-172 | cancellation inside the session marks dead and drains; in the backoff sleep it does neither |
| SkillRegistry.SkillProcess.OwnerWake | services/skill_runner/skill_registry.py:182-186 | after the backoff the skill is INIT and starting |
| SkillRegistry.SkillProcess.MaybeRestart | services/skill_runner/skill_registry.py:230-245 | a live skill is marked dead and told to restart, a dead one left alone |
| SkillRegistry.SkillProcess.ReloadBegin | services/skill_runner/skill_registry.py:249-251 | a reload starts by turning new calls away |
| SkillRegistry.SkillProcess.ReloadTryPost | services/skill_runner/skill_registry.py:252-255 | the restart message is posted only once nothing is in flight |
| SkillRegistry.EveryRequestInOnePlace | services/skill_runner/skill_registry.py:124-228 | under every interleaving an accepted open request is in exactly one place, once in the inbox or in service; one the owner is done with is in neither and answered |
| SkillRegistry.ResolvedOnce | services/skill_runner/skill_registry.py:30-43 | no step changes a future that is done |
| SkillRegistry.AnsweredByFirst | services/skill_runner/skill_registry.py:157-180 | a future is what the first event that answers it made it: a result iff a call in service succeeded, a failure iff it failed or the owner crashed or was cancelled with it queued, cancelled iff its caller was |
| SkillRegistry.HealthFollowsEvents | services/skill_runner/skill_registry.py:133-256 | life, announcement, restart count and whether the owner sleeps are on every schedule what the events so far make them |
| SkillRegistry.InboxIsPosted | services/skill_runner/skill_registry.py:152-256 | on every schedule the inbox holds, in the order they were posted, the messages neither taken nor drained: what was queued is taken before a restart asked for later |
| SkillRegistry.ServedInOrder | services/skill_runner/skill_registry.py:152-166 | requests are served in the order they were accepted |
| SkillRegistry.ReloadPostsAfterEveryAnswer | services/skill_runner/skill_registry.py:247-256 | when reload posts its message every request ever accepted is answered |
| SkillRegistry.InflightIsExact | services/skill_runner/skill_registry.py:206-228 | the in-flight counter is the number of callers inside, in every reachable state |
| SkillRegistry.CrashAnswersEveryone | services/skill_runner/skill_registry.py:173-180 | after a crash no accepted caller is left hanging |
| SkillRegistry.NobodyEntersAfterCrash | services/skill_runner/skill_registry.py:209-213 | between a crash and the next READY nothing is enqueued |
| SkillRegistry.CancelAnswersExactlyWhen | services/skill_runner/skill_registry.py:152-186 | cancelling the owner anywhere answers everyone iff it lands neither in the backoff sleep with an open request queued nor in the middle of a call whose request is open |
| SkillRegistry.OwnerAnswersEveryone | services/skill_runner/skill_registry.py:124-186 | liveness: from every reachable state with a live owner, at most 5 of its own steps for each queued message and 3 more answer everyone accepted so far |
| SkillRegistry.OwnerNeverStalls | services/skill_runner/skill_registry.py:124-186 | while somebody is not answered a live owner has a step to take |
| SkillRegistry.CancelInBackoffCanStrand | services/skill_runner/skill_registry.py:182-186 | a reachable schedule in which a cancelled owner strands a caller that came while it closed its session |
| SkillRegistry.CancelMidCallStrands | services/skill_runner/skill_registry.py:158-173 | cancelled in the middle of a call whose future is open, the owner leaves that request open and in no place at all |
| Indexer.CodeGraphIndexer.FullIndex | services/codegraph_embedder/indexer.py:40-86 | batch by batch an empty collection becomes exactly the database's nodes; a non-empty one is left alone |
| Indexer.CodeGraphIndexer.ChangedFiles | services/codegraph_embedder/indexer.py:88-109 | the listed paths whose stamp is new or different, each once, and the stamps to record |
| Indexer.CodeGraphIndexer.IncrementalUpdate | services/codegraph_embedder/indexer.py:111-154 | upsert first, then orphans file by file; the index after exactly as many store operations as were allowed |
| Indexer.CodeGraphIndexer.Poll | services/codegraph_embedder/indexer.py:156-165 | what was seen is recorded iff the whole update went through; the index is what the allowed operations made of it either way |
| Indexer.PollIsItsSteps | services/codegraph_embedder/indexer.py:111-165 | a poll that goes through or fails after any number of store operations is exactly its sequence of events |
| Indexer.SeenMeansInStep | services/codegraph_embedder/indexer.py:88-165 | in every reachable state of edits, polls and failed polls a listed path whose seen stamp is current has index entries exactly equal to the database's nodes |
| Indexer.FailedPollIsRetried | services/codegraph_embedder/indexer.py:156-165 | a failed poll lists the same still-listed files again |
| Indexer.QuietPollConverges | services/codegraph_embedder/indexer.py:88-165 | from any reachable state an undisturbed poll runs through and ends with every listed file in step |
| Indexer.EveryQuietPollConverges | services/codegraph_embedder/indexer.py:88-165 | so does every undisturbed, unfailing schedule of poller steps that is back between polls |
| Outbox.ImportanceProlongs | services/orchestrator/storage_manager.py:31-46 | higher importance never expires sooner, and never expires iff above 4.5 (rounding to even) |
| Outbox.ExpiryTable | services/orchestrator/storage_manager.py:31-46 | 30, 90, 365 or 1095 days by importance, with the halves rounded to even, and none above 4.5 |
| Outbox.RaisedIs | services/orchestrator/storage_manager.py:230-262 | a boost adds to the importance, to 3 if there is none, and stops at 5 |
| Outbox.DecayIsIdempotent | services/orchestrator/storage_manager.py:264-285 | decay closes exactly the session's memories without an end whose expiry has come, at the cutoff and with the marker re-opened; a second pass finds nothing |
| Outbox.Storage.StoreEpisode | services/orchestrator/storage_manager.py:164-185 | an episode is inserted with its own session and text and an open marker |
| Outbox.Storage.StoreMemory | services/orchestrator/storage_manager.py:187-210 | a fact is inserted with what it was given, its expiry and an open marker |
| Outbox.Storage.CloseMemory | services/orchestrator/storage_manager.py:212-228 | closing sets the end and re-opens the marker |
| Outbox.Storage.BoostMemoryImportance | services/orchestrator/storage_manager.py:230-262 | a boost caps at 5.0, renews the expiry and re-opens the marker; unknown ids are ignored |
| Outbox.Storage.DecayExpiredMemories | services/orchestrator/storage_manager.py:264-285 | the loop of closes equals closing all expired facts at once, and counts them |
| Outbox.Storage.ProcessCollection | services/orchestrator/outbox_worker.py:34-72 | a pass over one collection writes each document of its batch field by field into its vector, enqueues and marks it, in order, and nothing else |
| Outbox.Storage.ProcessOnce | services/orchestrator/outbox_worker.py:30-73 | a pass over both collections, with the vectors it leaves; batches short of the limit leave nothing waiting |
| Outbox.Storage.SearchMemories | services/orchestrator/storage_manager.py:288-318 | the hits whose vector is not closed, in rank order, each as its fact with the source in brackets before it, and bare |
| Outbox.StepsProjectOne | services/orchestrator/outbox_worker.py:48-71 | the three micro-steps on one document do what the loop does |
| Outbox.PassIsItsSteps | services/orchestrator/outbox_worker.py:34-72 | an undisturbed pass, complete or cut short after any document, is exactly its micro-steps |
| Outbox.QuietPassSettles | services/orchestrator/outbox_worker.py:34-72 | it takes its batch off what is waiting and leaves the stores exactly as much in sync as they were |
| Outbox.PassesDrain | services/orchestrator/outbox_worker.py:34-72 | each pass takes the limit off what is waiting, however the batches are chosen |
| Outbox.StepSyncsExactlyWhen | services/orchestrator/outbox_worker.py:65-71 | every step keeps the stores in sync, except that the mark does iff the document still projects to what was read |
| Outbox.RunSyncsExactlyWhen | services/orchestrator/outbox_worker.py:30-73 | over any run, crashes included, the stores are in sync throughout iff each mark finds its document still projecting to what was read |
| Outbox.NoOverlapMarksTruly | services/orchestrator/outbox_worker.py:65-71 | that is so if no writer touches a document in the batch |
| Outbox.ProcessedMeansProjected | services/orchestrator/outbox_worker.py:30-73 | then in every reachable state processed means the vector is the current projection and the id is on the stream |
| Outbox.DocsSaySo | services/orchestrator/storage_manager.py:164-285 | over any run a document holds the session, text and source its writer gave, the importance last written, its expiry and the last end, by the writers' events alone |
| Outbox.VectorsSaySo | services/orchestrator/outbox_worker.py:34-55 | and a processed document's vector holds those same words field by field, wherever every mark is true |
| Outbox.SearchShowsWhatWasSaid | services/orchestrator/storage_manager.py:288-318 | so with nothing waiting a search shows each open fact in the words it was stored with |
| Outbox.SearchIsCurrent | services/orchestrator/storage_manager.py:288-318 | then, with nothing waiting, search returns a hit iff its fact is not closed |
| Outbox.OverlapLosesClose | services/orchestrator/outbox_worker.py:65-71 | otherwise a reachable quiescent state may still return a closed fact |
| IterationBudget.IterationBudget.Consume | services/orchestrator/iteration_budget.py:69-75 | one unit, or refusal at the cap |
| IterationBudget.IterationBudget.Refund | services/orchestrator/iteration_budget.py:77-85 | one unit back, never below zero |
| IterationBudget.IterationBudget.Grace | services/orchestrator/iteration_budget.py:87-97 | granted once |
| IterationBudget.IterationBudget.RecordTurn | services/orchestrator/iteration_budget.py:114-128 | counted up to twice the cap, refunds or not |
| LoopDetection.LoopDetector.Reset | services/orchestrator/loop_detection.py:82-85 | history and reason are cleared |
| LoopDetection.LoopDetector.Record | services/orchestrator/loop_detection.py:87-89 | the verdict on the history with the new call |
| LoopDetection.LoopDetector.ShouldBreak | services/orchestrator/loop_detection.py:94-127 | repeat before cycle, with the per-call limit only for the repeat |
| LoopDetection.RepeatLimits | services/orchestrator/loop_detection.py:33-49 | only write_file and call_skill_tool are given the longer limit |
| LoopDetection.JudgedExactly | services/orchestrator/loop_detection.py:94-127 | a repeat iff the last calls up to the call's own limit are one and the same; a cycle iff not and the window is two limits long, holds no more different calls than the limit and nothing new at its end |
| LoopDetection.FreshCallTripsExactlyWhen | services/orchestrator/loop_detection.py:94-127 | a never-seen call trips the detector iff its repeat limit is 1 |
| LoopDetection.DistinctCallsNeverTrip | services/orchestrator/loop_detection.py:94-127 | pairwise distinct calls with limits above 1 never trip it |
| LoopDetection.SomeBlockIsStale | services/orchestrator/loop_detection.py:111-125 | pigeonhole: fewer distinct calls than blocks leave a block without a first occurrence |
| LoopDetection.StuckLoopIsBroken | services/orchestrator/loop_detection.py:87-127 | any history over at most r distinct calls is broken within r(r+1) calls |
| CompletionGuard.ReconcileOkIsExact | services/orchestrator/completion_guard.py:94-125 | passes exactly what may be called a success, never raises ok, notes exactly the downgrades, is idempotent |
| CompletionGuard.FinalAnswerIsHonest | services/orchestrator/completion_guard.py:128-161 | a downgraded answer carries an error, an existing error survives |
| ReactLoop.ReactRun.constructor | services/orchestrator/coding_orchestrator.py:654-683 | a process starts fresh, or from a checkpoint of this goal with its clock set back by the time already taken |
| ReactLoop.ReactRun.Finish | services/orchestrator/coding_orchestrator.py:890-976 | finish is deferred, annotated or reconciled as specified |
| ReactLoop.ReactRun.LoadSkill | services/orchestrator/coding_orchestrator.py:978-1060 | a repeated load skips the halt and is refunded, a new one is recorded and remembered |
| ReactLoop.ReactRun.UseTool | services/orchestrator/coding_orchestrator.py:986-1434 | a dispatched tool is recorded, may halt the loop, and its effects are accounted |
| ReactLoop.ReactRun.HandleCalls | services/orchestrator/coding_orchestrator.py:876-1434 | the calls of a turn in order, up to a deferral or an exit |
| ReactLoop.ReactRun.TopOfTurn | services/orchestrator/coding_orchestrator.py:692-774 | cancellation, deadline, ceiling, budget and grace, in that order |
| ReactLoop.ReactRun.TakeTurn | services/orchestrator/coding_orchestrator.py:689-1440 | one turn with its refund |
| ReactLoop.RunReactLoop | services/orchestrator/coding_orchestrator.py:654-1500 | a whole process against the store of documents: loaded, every finished turn saved, cleared on exit, kept on death, any of these perhaps failing; other tasks untouched |
| ReactLoopRuns.SpendingIsBounded | services/orchestrator/coding_orchestrator.py:745-774 | over any history at most 2·cap model calls for each process, 2·cap + crashes in all if no save failed, at most 1 + crashes grace turns, and 0 ≤ used ≤ cap |
| ReactLoopRuns.SpendingIsAccounted | services/orchestrator/iteration_budget.py:69-128 | each model call is a unit in use, the grace turn, a unit given back or part of a turn that a crash threw away; so at most cap + 1 without crashes and refunds |
| ReactLoopRuns.TurnsAreCounted | services/orchestrator/iteration_budget.py:114-128 | while the goal is open, turns taken are turns counted plus turns thrown away |
| ReactLoopRuns.CapacityIsProduct | services/orchestrator/iteration_budget.py:114-128 | 2·cap turns for each process come to 2·cap times their number |
| ReactLoopRuns.LoopEnds | services/orchestrator/coding_orchestrator.py:745-774 | after 2·cap turns for each process there is an exit, however much was refunded |
| ReactLoopRuns.SavedLoopEnds | services/orchestrator/coding_orchestrator.py:745-774 | after 2·cap turns besides the crashes if no save failed |
| ReactLoopRuns.ResumeRestores | services/orchestrator/coding_orchestrator.py:661-676 | saved, written as a document over whatever was there, read back and resumed, the loop is the same with its clock carried on, but for the streak of infrastructure errors |
| ReactLoopRuns.OtherGoalStartsAfresh | services/orchestrator/coding_orchestrator.py:661-664 | a checkpoint of another goal is not resumed |
| ReactLoopRuns.CrashLosesUnsavedTurns | services/orchestrator/coding_orchestrator.py:1462-1489 | a crash costs exactly the turn it interrupts and the unsaved ones right before it |
| ReactLoopRuns.LateExactlyWhen | services/orchestrator/coding_orchestrator.py:672-731 | on a clock that all processes share, the deadline is held against the time since the goal began, less, for each crash, the time from the last saved turn to the next process |
| ReactLoopRuns.TotalTimeExactlyWhen | services/orchestrator/coding_orchestrator.py:672-731 | so it measures the total time of the goal iff the crashes dropped none |
| ReactLoopRuns.NoCrashMissesNothing | services/orchestrator/coding_orchestrator.py:672-731 | without a crash none is dropped |
| ReactLoopRuns.LostTimeIsFree | services/orchestrator/coding_orchestrator.py:672-731 | after a crash in the first turn the goal goes on, however long ago its deadline passed |
| ReactLoopRuns.VerificationIsRemembered | services/orchestrator/verification_stop.py:25-48 | tests_passed iff the trace holds an accepted verification; at most MAX_VERIFY_NUDGES deferrals |
| ReactLoopRuns.ExitsAreHonest | services/orchestrator/coding_orchestrator.py:890-976 | an ok finish is no punt and no unbacked claim; a cutoff is ok iff something was edited and verified; cancel, loop and error exits never are |
| ReactLoopRuns.TextExitIsUnchecked | services/orchestrator/coding_orchestrator.py:866-873 | the exit with plain text is ok even for a punt |
| ReactLoopRuns.ProcessIsPartOfHistory | services/orchestrator/coding_orchestrator.py:654-1489 | the method's account of one process is the history's |
| ReactLoopTrace.VariablesAreTrace | services/orchestrator/coding_orchestrator.py:876-1434 | in every open history edits, tools, signatures, loaded skills and the streak are functions of the calls dispatched, and the messages are the prompt and, turn by turn, what each call gave |
| ReactLoopTrace.FinishIsDeferredExactlyWhen | services/orchestrator/verification_stop.py:25-48 | a turn that ends in a finish goes on iff something was edited and nothing verified, fewer finishes were deferred than nudges allowed, and the errors since the last test that ran in this process are below their limit or there is none; else it exits with the annotated summary, ok iff the text may pass |
| ReactLoopTrace.UnverifiedFinishes | services/orchestrator/coding_orchestrator.py:890-976 | so a goal that finished with unverified edits had used up its nudges or met that streak of errors |
| ReactLoopTrace.LoopDetectedExactlyWhen | services/orchestrator/coding_orchestrator.py:978-1018 | a turn that ends in a tool call exits iff that call closes a loop by all signatures so far and its tool's limit, and is no repeated load |
| ReactLoopTrace.TurnsEndExactlyWhen | services/orchestrator/coding_orchestrator.py:692-774 | before the model is asked the loop ends iff cancelled, overdue, with 2·cap turns standing, or with more model calls standing, less those given back, than cap; in that order |
| ReactLoopTrace.CutoffsGiveReasons | services/orchestrator/coding_orchestrator.py:728-774 | each cutoff names its own reason, in the note of completion iff something was edited and verified |
| ReactLoopTrace.RefundsExactly | services/orchestrator/coding_orchestrator.py:1435-1440 | a turn costs one unit and gives back one for each call that was short-circuited and one if all its calls only looked, never below nothing |
| ReactLoopTrace.DocumentHolds | services/orchestrator/coding_orchestrator.py:1472-1489 | the document saved at the end of a turn holds each variable under its own key |
| LoopCheckpoint.RoundTrip | services/orchestrator/loop_checkpoint.py:68-119 | what is written reads back exactly, over any earlier document and extra keys |
| LoopCheckpoint.AcceptedIsGenuine | services/orchestrator/loop_checkpoint.py:89-122 | a document is accepted only with the right version and the required fields at their types |
| LoopCheckpoint.AcceptedMeans | services/orchestrator/loop_checkpoint.py:89-122 | every other field of an accepted document is what its value stands for as a number, flag or list, or the default of a missing key |
| LoopCheckpoint.ReadingIsStable | services/orchestrator/loop_checkpoint.py:89-122 | reading, writing and reading again gives the same checkpoint |
| LoopCheckpoint.CheckpointStore.Save | services/orchestrator/loop_checkpoint.py:137-145 | the task's document reads back as saved, others are untouched, a failure changes nothing |
| LoopCheckpoint.CheckpointStore.Load | services/orchestrator/loop_checkpoint.py:147-153 | absent, failed and malformed all read as none |
| LoopCheckpoint.CheckpointStore.Clear | services/orchestrator/loop_checkpoint.py:155-159 | only the task's document goes |
| CircuitBreaker.McpClientManager.BreakerOpen | services/mcp-bridge/mcp_client_manager.py:78-82 | the pruning loop and the verdict |
| CircuitBreaker.McpClientManager.DrainWith | services/mcp-bridge/mcp_client_manager.py:84-91 | everything waiting is answered once, given answers stand |
| CircuitBreaker.McpClientManager.RunOnce | services/mcp-bridge/mcp_client_manager.py:93-127 | one pass: open circuit drains and forgets, closed circuit records the crash and doubles the backoff |
| CircuitBreaker.McpClientManager.ServeOne | services/mcp-bridge/mcp_client_manager.py:129-145 | the oldest request is answered; only a crash ends the session |
| CircuitBreaker.AnswersStand | services/mcp-bridge/mcp_client_manager.py:84-91 | draining answers everything that waits without an answer, nothing else, and overwrites none |
| CircuitBreaker.BackoffDoubles | services/mcp-bridge/mcp_client_manager.py:93-127 | each attempt in a row that never comes up doubles the backoff, up to 30 seconds |
| CircuitBreaker.BackoffStartsOver | services/mcp-bridge/mcp_client_manager.py:93-127 | a session that came up starts over from half a second; a tripped breaker keeps the backoff and forgets its crashes |
| CircuitBreaker.PruningIsExact | services/mcp-bridge/mcp_client_manager.py:78-82 | pruning keeps exactly the crashes inside the window |
| CircuitBreaker.CrashRateIsBounded | services/mcp-bridge/mcp_client_manager.py:93-127 | over any run no stretch of time as long as the window holds more than max_failures crashes, though the deque is pruned and cleared |
| CircuitBreaker.RateIsExact | services/mcp-bridge/mcp_client_manager.py:78-127 | for m ≥ 1 allowed failures, m + 1 crashes can fall into a stretch of time iff it is longer than the window and at least as long as m first backoffs |
| Compaction.SessionStore.AddTurn | services/ws_gateway/sessions.py:73-86 | numbers are the positions, without gaps |
| Compaction.ContextManager.Eligible | services/memory/context_manager.py:437-452 | the turns above the watermark and at most 15 below the newest |
| Compaction.ContextManager.FullCompact | services/memory/context_manager.py:410-511 | the steps with their rollbacks equal the specification for every combination of failures |
| Compaction.SplitIntoBlocks | services/memory/context_manager.py:362-365 | the slicing loop yields the blocks |
| Compaction.BlocksPartition | services/memory/context_manager.py:362-375 | no turn is lost, repeated or moved; all blocks but the last are full |
| Compaction.SummarisedExactlyOnce | services/memory/context_manager.py:424-511 | over any history the turns up to the watermark were each summarised once and in order, none later, never the newest 15 |
| Compaction.WatermarkAdvances | services/memory/context_manager.py:494-505 | the watermark never goes back, moves to the newest turn but 15, and compacting again is idle |
| Compaction.FailureRollsBack | services/memory/context_manager.py:483-505 | a failing model or write leaves summary and watermark alone; at most the first anchor stays |
| Compaction.SummaryCovers | services/memory/context_manager.py:461-481 | the stored summary stems from an unbroken run of turns up to the watermark, and from all of them iff no compaction found it blank after an earlier success |
| Compaction.CompactsExactlyWhen | services/memory/context_manager.py:424-505 | over any history a compaction moves the watermark iff there is something to summarise and the model and all its writes succeed |
| Compaction.SummaryIsFolded | services/memory/context_manager.py:479-505 | over any history the stored summary is the left fold of the model's merge over the replies since the last blank one, the first stored as it is |
| Compaction.AppendingMergeKeepsAll | services/memory/context_manager.py:479-505 | so with a merge that appends, the reply for every covered turn is part of the summary, in order |
| Compaction.AnchorIsFirstReply | services/memory/context_manager.py:459-473 | the anchor is the first non-blank reply whose write went through |
| Compaction.BlankReplyRestarts | services/memory/context_manager.py:461-481 | a blank reply does that: a history after which the first turn is summarised and covered by nothing |
| Compaction.NothingFallsBetween | services/memory/context_manager.py:180-211 | every turn is summarised or among the recent ones iff the backlog is at most 50 |
| Compaction.BacklogCanHideTurns | services/memory/context_manager.py:180-211 | a history of 51 turns of which the first is shown nowhere |
| ContextBudget.TrimToBudget | services/memory/context_manager.py:151-158 | text that fits is left alone, else the longest suffix of non-empty lines that fits |
| ContextBudget.TrimIsUnique | services/memory/context_manager.py:151-158 | that rule determines the result |
| ContextBudget.Pack | services/memory/context_manager.py:281-291 | the longest prefix of the eight best that fits |
| ContextBudget.BuildContext | services/memory/context_manager.py:89-149 | pinned text verbatim, each slot cut to its share and to what is left |
| ContextBudget.SlotsNotNegative | services/memory/context_manager.py:29-34 | non-negative shares of a non-negative budget truncate to non-negative slots |
| ContextBudget.SlotTruncates | services/memory/context_manager.py:29-34 | a share comes to whole tokens by dropping the fraction, towards zero |
| ContextBudget.SlotsCostTheirShare | services/memory/context_manager.py:89-149 | chunks, summary, anchor and recent turns each cost at most their own share of the budget, the anchor beside its heading |
| ContextBudget.SlotsShowWhatFits | services/memory/context_manager.py:89-149 | what fits its own share and what is left after the pieces served before is shown whole; the anchor only if it has drifted out of the summary shown |
| ContextBudget.PromptStaysInBudget | services/memory/context_manager.py:89-149 | with sub-additive counts and pinned text inside the budget, the prompt exceeds it by at most the anchor's heading and the blank lines between pieces |
| ContextBudget.PromptFitsWhenRoomy | services/memory/context_manager.py:89-149 | pinned text that leaves room for every slot, the heading and the blank lines makes the prompt fit, whatever fills the slots |
| ContextBudget.PinnedTextOverruns | services/memory/context_manager.py:48-69 | for any tokenizer for which more text is never fewer tokens, the prompt overruns the budget, whatever fills the slots, as soon as its pinned text with the blank lines does |
| ContextBudget.PinnedPiecesOverrun | services/memory/context_manager.py:48-69 | with additive counts that is when the pieces and the blank lines between them do |
| ContextBudget.PinnedAloneFitsExactlyWhen | services/memory/context_manager.py:48-69 | for any tokenizer a prompt of pinned text alone is that text with its blank lines and fits iff it does; with additive counts, iff pieces and blank lines do |
| ContextBudget.BudgetCanBeOverrun | services/memory/context_manager.py:89-149 | counting characters, pinned text of two makes a prompt of four against a budget of two, whatever the shares |
| ContextBudget.PromptEnds | services/memory/context_manager.py:48-69 | the instructions stand at the head of the prompt and the recent turns at its end |
| ContextBudget.PiecesInOrder | services/memory/context_manager.py:48-69 | the pieces that are there stand in the prompt whole and in their order |
| MessageRepair.DropOrphanToolResults | services/orchestrator/message_repair.py:42-63 | a tool result stays iff an earlier assistant turn declared its call |
| MessageRepair.MergeAdjacentSameRole | services/orchestrator/message_repair.py:76-106 | the loop folds later user and plain assistant turns into earlier ones |
| MessageRepair.SanitizeMessages | services/orchestrator/message_repair.py:109-123 | drop, then merge |
| MessageRepair.ValidateMessages | services/orchestrator/message_repair.py:126-156 | the structural problems in order, and the calls nobody answers |
| MessageRepair.NoProblemsExactlyWhen | services/orchestrator/message_repair.py:126-156 | it reports none iff no result is an orphan and no neighbours are mergeable |
| MessageRepair.ProblemsAreExact | services/orchestrator/message_repair.py:126-156 | each problem is reported at its place iff it is there: a result no earlier call asked for, two user or two plain assistant messages in a row |
| MessageRepair.DanglingExactlyWhen | services/orchestrator/message_repair.py:126-156 | a call is dangling iff an assistant message made it and no later tool result answers it |
| MessageRepair.SanitizedIsValid | services/orchestrator/message_repair.py:109-123 | the repaired list has no structural problem and exactly the input's dangling calls |
| MessageRepair.SanitizingIsIdempotent | services/orchestrator/message_repair.py:109-123 | repairing twice is repairing once |
| MessageRepair.UntouchedExactlyWhen | services/orchestrator/message_repair.py:109-123 | a list is unchanged iff it had no problem |
| MessageRepair.TextIsKept | services/orchestrator/message_repair.py:66-106 | what any roles but tool said reads the same line for line |
| MessageRepair.CallsAreKept | services/orchestrator/message_repair.py:42-106 | every assistant turn with calls survives unchanged and in order, as do the results that are no orphans |
| MessageRepair.HeadStays | services/orchestrator/message_repair.py:115-118 | leading system messages stay unchanged in place |
| MessageRepair.MergingFirstFails | services/orchestrator/message_repair.py:112-123 | the passes in the other order leave a problem |
| ToolNames.ManifestLocalToolNames | services/orchestrator/tool_manifest.py:178-199 | exactly the final names of the usable descriptors, or the fallback |
| ToolNames.AdvertisedNames | services/orchestrator/tool_manifest.py:158-175 | hosted and skill tools are advertised as mcp__namespace__name, all others under their bare name |
| ToolNames.ParseNamespacedTool | services/frontend/electron/mcp-registry.ts:38-58 | the loop over known servers equals the specification |
| ToolNames.BestIsLongest | services/frontend/electron/mcp-registry.ts:45-52 | it finds a longest match, and none only if there is none |
| ToolNames.ParsesExactlyWhen | services/frontend/electron/mcp-registry.ts:38-58 | a name parses to a server and tool iff it is what is printed for them, the server is known, the tool has a name, and no longer known server could be meant |
| ToolNames.ParsesBackExactlyWhen | services/orchestrator/tool_manifest.py:158-175 | a tool parses back iff it does not begin with an underscore that a known server, the name with one more underscore, claims |
| ToolNames.RoundTripsExactlyWhen | services/orchestrator/tool_manifest.py:158-175 | every tool of a server parses back iff the name with one more underscore is not a known server |
| ToolNames.PrintCollidesExactlyWhen | services/orchestrator/tool_manifest.py:158-175 | two tools share a printed name iff an underscore moved between server and tool |
| ToolNames.DisplayAgreesExactlyWhen | services/orchestrator/events.py:91-96 | the display shows the server iff its name is not empty and does not end in an underscore |
| ToolNames.ThreeWayAgreement | services/frontend/electron/labmate-home.ts:74-79 | without empty names and trailing underscores printing is injective, parses back and displays its server |
| ToolNames.FinalNameRoutesExactlyWhen | services/orchestrator/tool_manifest.py:158-175 | a hosted tool's final name routes back to its server and name iff the server's name is not empty and no known server claims a leading underscore |
| FuzzyMatch.FuzzyMatch | services/frontend/electron/fs-search.ts:25-34 | true iff the query is empty or a subsequence of the target, after lower-casing |
| FilePaging.LinesAreLossless | services/cli/local_tool_executor.py:40-49 | splitting, restoring newlines and dropping the synthetic last line lose nothing |
| FilePaging.PagesGiveBackText | services/cli/local_tool_executor.py:33-53 | pages of k ≥ 1 lines at 1, 1+k, 1+2k, … concatenate to exactly the text |
| FilePaging.OffsetSkipsLines | services/cli/local_tool_executor.py:50-51 | an offset skips exactly the lines before it, a non-positive one none |
| FilePaging.LimitTakesLines | services/cli/local_tool_executor.py:50-53 | a limit takes that many lines, a negative one leaves off as many at the end |
| Wilson.UnclampedSolves | eval/seq_ab/variance.py:17-22 | the closed form solves the interval's quadratic |
| Wilson.IntervalInvertsScoreTest | eval/seq_ab/variance.py:10-22 | the interval holds exactly the rates that the score test does not reject |
| Wilson.IntervalLies | eval/seq_ab/variance.py:10-22 | it contains the observed rate and lies in [0, 1] before clamping |
| Wilson.NoTrialsDecideNothing | eval/seq_ab/variance.py:10-27 | an arm without trials is disjoint from no interval |
| Wilson.IntervalRises | eval/seq_ab/variance.py:10-22 | both ends rise strictly with the successes |
| Wilson.PerfectSplitDisjointExactlyWhen | eval/seq_ab/variance.py:25-27 | n of n against 0 of n is disjoint iff n > z² |
| Wilson.FourTrialsSeparate | eval/seq_ab/compare.py:9-12 | at z = 1.96 iff n ≥ 4 |
| Wilson.WinsExactlyWhen | eval/seq_ab/compare.py:19-31 | a win iff both arms have enough trials and the variant's interval lies wholly above |
| Wilson.WinningIsConsistent | eval/seq_ab/compare.py:19-31 | never both ways, and more successes of the variant keep a win |

## Left out

Assumptions of the model:

- Each run of the graph starts on a fresh thread, from the execute node, with a plan; where a theorem needs it, the plan's root
  has a child. The graph library's own cap on supersteps (`services/orchestrator/coding_orchestrator.py:1670` passes none) ends
  no run: with it, long runs would break off, and those of `GoalGraphCritique.LoopsForever` would too.
- Skill callers are not cancelled before they have enqueued, nor the owner in the middle of a call (what happens then is
  `SkillRegistry.CancelMidCallStrands`); a lock section is one step; no tool's own failure is a `SkillUnavailable`.
- The indexer's `watch` begins after `full_index` is done; the database never reuses a stamp for a file whose nodes change.
- One outbox worker, one compaction of a session at a time; a vector upsert replaces the row; a store operation that fails
  changed nothing, and a rollback succeeds.
- The histories of `ReactLoopRuns` begin without a checkpoint, and a new process manages to load the one there is (a failing
  save or clear is part of them). The lists in a stored checkpoint hold texts, as the loop writes them; other entries would be
  skipped here.
- A sleep lasts at least as long as asked for, and clocks do not go back.

What the repository does and the model does not:

- Prompts, model calls, embeddings, ranking, events, logging and telemetry.
- The plan node, ambiguity assessment and clarification of the graph; the `error_class`, `tools_used` and `tests_passed`
  fields threaded through its state; timestamps of goals.
- Phrase lists and regular expressions (punts, success claims, blank text, error classes): parameters or event fields. Of the
  error classifier only that blank text is retryable is used. Critique types that the artifact classifier never answers have no
  effect and are not part of the configuration.
- Steering messages, cancellation plumbing and the no-progress breaker (a turn that gets to it always had tool calls) in the
  ReAct loop; message fields besides role and content; what single tools do beyond their effect on the loop's accounting.
- The drift test between anchor and summary, reflections, core-memory consolidation and `conversation_context`.
- Deletion of sessions, vector search itself, and non-numeric importances.
- Rounding in the comparison's report, recorded pass rates that differ from the counts, and floating point: arithmetic is
  over integers and exact reals.
- Path confinement, permissions, user interfaces, connectors, evaluation drivers and code generation.
- `plan_and_dispatch` beyond one result for each ready goal; token and progress counters.
- ReactLoop.ReactRun.Finish: the reason quoted in the infrastructure note is part of a parameter, and the messages of a deferral
  stand for the texts of the nudges.
- ReactLoop.ReactRun.UseTool: a tool's result is an arbitrary effect (edits, verification, test outcome, deduplication)
  rather than what the tool did.
- Outbox.Storage.BoostMemoryImportance: reads and writes in one step, where the code reads first. The event of the state machine
  writes any importance, so its theorems cover a stale read; that two boosts at once can lose one of them is not stated.
- MessageRepair.ValidateMessages: the problems carry their kind and position, not their wording, and the dangling calls are a set,
  without an order.
- Compaction.ContextManager.FullCompact: returns whether an exception escaped, not the statistics the code reports.
