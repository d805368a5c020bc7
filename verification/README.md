# A verified model of the analysis agent's run protocol

The repository runs data-analysis agents: a graph of thirteen nodes plans, calls governed tools,
evaluates, asks the user and answers; its events are stored in an append-only log, sent to the
browser as server-sent events and folded there into what the user sees. This project models that
path from end to end, with two of its stateful stores and the inline markdown tokenizer, and proves
what each part keeps and that the parts fit together.

| file | what it models |
|---|---|
| `Outcomes.dfy`, `Numerals.dfy` | results of calls; decimal numerals |
| `AgentModels.dfy` | plans, decisions, observations, artifacts, evidence, budgets, run events and their validators |
| `PlanGraph.dfy` | the depth-first plan validator and the choice of the next step |
| `PlanEdits.dfy` | how a plan may change while it is carried out, and the order of execution |
| `AgentGuard.dfy`, `AgentReducers.dfy`, `AgentRouting.dfy` | guards and budgets, append-only reducers and the status table, routers |
| `AgentEvaluator.dfy`, `AnalysisPlanner.dfy` | the deterministic part of the evaluator; the planner's checks |
| `DatasetResolver.dfy`, `ResolverChoices.dfy` | the deterministic next-action resolver of dataset runs; exactly when it makes which choice |
| `AnalysisGraph.dfy` | the graph as a step machine: every node, the edges, interrupts and resumes |
| `RunRecord.dfy`, `RunSafety.dfy`, `RunStory.dfy` | properties of whole graph runs |
| `NodeOutcomes.dfy` | why each node fails, if it does, and what it leaves |
| `PlanExecution.dfy`, `DatasetRuns.dfy` | the order in which a run carries out its plans; what a run with the dataset resolver cannot reach |
| `GraphStream.dfy` | the translation of the graph's stream into numbered events, and its acceptance by the log |
| `RunEventStore.dfy`, `RunCoordinator.dfy` | the run-event log and the concurrent `observe` streams |
| `EventStreamWire.dfy`, `StreamReading.dfy` | the server-sent-event printer, the incremental reader and the server-side collector; what the reader makes of any text |
| `RunReplica.dfy`, `ReplicaContents.dfy` | the browser's reducer; what its copy holds, by positions of the log |
| `EndToEnd.dfy`, `ScreenRecord.dfy` | from the graph to the screen; what the screen of an ended run shows of its record |
| `RunExamples.dfy`, `ChargeRuns.dfy` | two concrete runs that break a rule; two whose model charge is wrong |
| `AuthStore.dfy` | users and refresh-token rotation |
| `IsoInstant.dfy`, `ArtifactStore.dfy` | ISO texts of instants; the artifact store |
| `InlineMarkdown.dfy` | the inline markdown tokenizer |

Modelling choices. A lock section and a store write are one atomic step each. A node execution is one
superstep; an interrupt is a superstep that emits `run_waiting` and leaves the state as it was, and a
resume executes the paused node again from its start. The outside world (clock, cancellation flag,
planner, resolver, tools, evaluator model, synthesizer, persistence) is an arbitrary record of answers
for each node execution, whose values pass the validators of `models.py`; a deadline that passes while
a call is awaited is one of the errors the call may raise. Digests and the JSON encoding are injective
functions; the JSON text of an object has no raw line break (RFC 8259, section 7). The event frames
follow section 9.2 of the WHATWG HTML Standard, "Server-sent events".

## What was found

- **One active run per conversation** holds on every history that passes a conversation id with
  sequence 0 only, as `observe` does. `append` itself would accept a late id: `OneActiveRunKeptIff` says
  exactly when that breaks the rule, and `LateAttachWitness` is the two-run history that breaks it.
- **A failed claim** sets the stream's run key before the test, so its `finally` looks at the owner's slot.
  With one task a stream, no interleaving evicts an owner (`FailedClaimNeverEvicts`). Without that promise
  the slot survives the release if and only if it holds another task (`FailedClaimKeepsOwnerIff`), and
  `SharedTaskEvicts` is a history in which one shared task does evict the owner.
- **A step can be started twice.** After a failed result the planner may write the plan anew, and only the
  revision number is checked against the old one. `AStepStartsTwice` is such a dataset run. Over all runs, steps start once and
  after their dependencies if and only if every announced plan fits the steps started before it
  (`SequenceKeptIff`); the plan is a record of the execution if and only if every plan that the planner
  writes over an existing one is in order with them (`RecordKeptIff`). Runs in which it never does, or takes
  up where the run is (`TakesUp`), keep the order (`ExecutionRespectsDependencies`).
- **A run whose first node fails** emits only `run_failed`, at sequence 0, which the log rejects
  (`InitFailureIsRejected`); every other run is accepted (`StreamIsAccepted`).
- **A resume message that is refused** still leads to the planner. The stream stays acceptable if and only
  if a guard of the planning node stops it there (`RefusedResumeIsAcceptedIff`); otherwise its plan is
  announced to a log that waits. `EmptyAnswerIsRejected` is such a run.
- **The charge for the resolver's model call is not always exact**; `ChargeIsExactIff` says for every view when
  it is. A call goes uncharged where the latest inspection's first semantic artifact has evidence and another one
  has none, or where the next step asks for an inspection that may not run. In a run whose inspections leave one
  artifact each, that happens only after the planner has written a plan over another
  (`UnchargedOnlyAfterRewrite`); `ACallGoesUncharged` is such a run: a tool times out, the new plan inspects a
  second time, and evidence is collected for the second artifact. The catalog inspection plays no part, because
  the first decision gives a run up that may not make it (`CatalogIsAllowed`). `AChargeBuysNoCall` is a run that
  is charged for nothing: a clarified query is compiled, its execution times out, and the replan charges for a
  query that is prepared already.
- **The screen of an ended run** shows the run's response, its plan and every recorded artifact and piece of
  evidence (`EndedScreenShowsRecord`). It shows more than the record if and only if the run was stopped after a
  tool completed and before its result was observed, and that result was not on record (`ScreenIsRecordIff`).
- **The recursion limit** `12 + 6*steps + 2*replans` is met with room: over all its legs a run completes at
  most `6*steps + 6` nodes (`RunIsBounded`), and no leg attempts more than `6*steps + 7`.

## Model

| member | source | states |
|---|---|---|
| PlanGraph.ValidateStepGraph | src/data_agent/analysis_agent/models.py:244-276 | the depth-first validator accepts a plan if and only if its ids are unique, its dependencies known and a topological order exists; it terminates |
| PlanGraph.StepGraphSearch.Visit | src/data_agent/analysis_agent/models.py:263-272 | one recursive visit either extends the dependency-closed order of visited steps or has found a cycle |
| PlanGraph.SearchAll | src/data_agent/analysis_agent/models.py:260-276 | the search over all steps succeeds if and only if an order of them exists, and fails only with a cycle in hand |
| PlanGraph.AcceptableHasNoCycle | src/data_agent/analysis_agent/models.py:263-276 | an accepted plan has no dependency cycle |
| PlanGraph.FirstRunnable | src/data_agent/analysis_agent/nodes.py:534-546 | the step chosen is pending with all dependencies done, and no earlier step is |
| PlanGraph.PlanProgress | src/data_agent/analysis_agent/models.py:244-276 | in an accepted plan whose unfinished steps are pending, a step can start unless all are done |
| PlanEdits.EditsKeepAcceptable | src/data_agent/analysis_agent/composition.py:745-787 | an edited plan passes the step-graph validator again: unique ids, known dependencies, no cycle |
| PlanEdits.EditKeepsOrder | src/data_agent/analysis_agent/composition.py:672-680 | an edit keeps the order of execution a linear extension of the plan |
| PlanEdits.TakingUpKeepsOrder | src/data_agent/analysis_agent/planner.py:151-161 | so does any new plan that restarts no started step, drops none, adds no dependency to one, completes only started ones and keeps the unstarted skips |
| PlanEdits.StartKeepsOrder | src/data_agent/analysis_agent/nodes.py:552-562 | so does starting a runnable step |
| PlanEdits.StartMeetsIff | src/data_agent/analysis_agent/nodes.py:533-562 | starting a runnable step keeps every dependency met if and only if all were met and the step waits for started or skipped steps only |
| PlanEdits.OutcomeKeepsOrder | src/data_agent/analysis_agent/nodes.py:714-724 | so does recording the outcome of a started step |
| AgentGuard.ConsumeBudget | src/data_agent/analysis_agent/guard.py:57-86 | the loop over the counters computes the draw one counter after the other |
| AgentGuard.ConsumeIffRoom | src/data_agent/analysis_agent/guard.py:72-86 | a draw succeeds if and only if every counter named has room for all its occurrences |
| AgentGuard.ConsumeAdds | src/data_agent/analysis_agent/guard.py:85-86 | it then adds exactly the occurrences, and leaves the time window alone |
| AgentGuard.RefusalNamesFirst | src/data_agent/analysis_agent/guard.py:78-84 | a refusal carries the code of the first counter without room |
| AgentGuard.ToolBudgetCounters | src/data_agent/analysis_agent/guard.py:89-97 | a tool draws exactly one tool call, one unit of its own counter if it is a query tool, and nothing else |
| RunSafety.GuardPermits | src/data_agent/analysis_agent/guard.py:100-138 | a decision is routed to the tool node if and only if it acts, on a registered, allowed dataset tool of this mode, with arguments its schema accepts |
| RunSafety.OnlyPermittedToolsStart | src/data_agent/analysis_agent/nodes.py:630-658 | in every run, a started tool is a permitted one, whatever the planner asked for |
| RunSafety.StoppedRunOnlyFails | src/data_agent/analysis_agent/guard.py:34-54 | after cancellation or the deadline no node says anything; the run only fails, with the code of the cause |
| RunSafety.WindowIsFixed | src/data_agent/analysis_agent/nodes.py:364-368 | over the whole run the deadline is the start of its first node plus the duration limit |
| RunSafety.StoppedIff | src/data_agent/analysis_agent/guard.py:34-54 | a node is stopped if and only if the run is cancelled or that deadline has come, with the code of the cause |
| RunSafety.NeverAsksTwice | src/data_agent/analysis_agent/nodes.py:519-529 | over a whole run no clarification that was answered is asked again |
| RunSafety.SameQuestionIff | src/data_agent/analysis_agent/nodes.py:519-529 | two requests count as the same question if and only if they agree in everything, their prompts up to normalization |
| AgentReducers.AppendUnique | src/data_agent/analysis_agent/state.py:32-51 | the loop with its position table computes the merge of one update after the other |
| AgentReducers.MergeAllMeans | src/data_agent/analysis_agent/state.py:41-51 | a merge fails if and only if two different values share an id; otherwise it appends, keeps ids unique and holds exactly the old and the new |
| AgentReducers.ReplayIsNoOp | src/data_agent/analysis_agent/state.py:32-51 | replaying merged updates changes nothing |
| AgentReducers.EndedStaysEnded | src/data_agent/analysis_agent/state.py:90-124 | terminal statuses absorb, and nothing returns to initializing |
| AgentReducers.TransitionIff | src/data_agent/analysis_agent/state.py:90-124 | what the table allows: to stay, to leave a status that is not terminal, and to wait or complete from running only |
| AgentEvaluator.NoModelCallNeeded | src/data_agent/analysis_agent/evaluator.py:154-209 | once something was observed the evaluation is always decided without a model |
| AgentEvaluator.FinishIff | src/data_agent/analysis_agent/evaluator.py:211-335 | it says finish if and only if there is evidence, the last result is good, artifacts and evidence match the authority and every non-skipped step is completed |
| AgentEvaluator.ProgressDecisionIsValid | src/data_agent/analysis_agent/models.py:447-475 | every verdict passes all checks of its constructor: a question if and only if it asks, sufficient evidence if and only if it is done, and no repeated entry in its three lists |
| AgentEvaluator.VerdictIff | src/data_agent/analysis_agent/evaluator.py:211-335 | each verdict if and only if its situation: fail after an error that cannot be retried or a mismatch, replan after one that can or an unusable result, finish with evidence and no step left, continue otherwise |
| AgentEvaluator.VerdictReasons | src/data_agent/analysis_agent/evaluator.py:241-320 | the contradiction a verdict names is the error, the mismatch or the number that is not finite it was given for |
| AgentEvaluator.VerdictNames | src/data_agent/analysis_agent/evaluator.py:154-209 | a verdict names exactly the completed steps, and something missing if and only if a result is wanted |
| AgentEvaluator.EvidenceFitsIff | src/data_agent/analysis_agent/evaluator.py:275-287 | evidence fits if and only if it has the pins and schema of the authority and the digest of a recorded artifact |
| AgentEvaluator.NonFiniteIsFound | src/data_agent/analysis_agent/evaluator.py:338-345 | a number that is not finite is found however deep it lies, and nothing else is |
| AnalysisPlanner.NormalizedDecisionIsSound | src/data_agent/analysis_agent/planner.py:136-149 | a normalized first decision is refused only for its tool or arguments, and a step of it can start |
| AnalysisPlanner.ValidatedActionStarts | src/data_agent/analysis_agent/planner.py:151-182 | a validated action finds a step to start |
| AnalysisPlanner.ValidateDecisionIff | src/data_agent/analysis_agent/planner.py:151-182 | a decision passes if and only if its revision is the one due and an action has a step, a known tool and accepted arguments |
| AnalysisGraph.InitializeOk | src/data_agent/analysis_agent/nodes.py:336-407 | the first node leads to the context or to `fail`; it says `run_started` if and only if it succeeds, and otherwise nothing; its deadline is its start plus the duration limit |
| AgentRouting.EdgeFollowsGraph | src/data_agent/analysis_agent/graph.py:270-333 | routing takes exactly the edges of the graph: the route decides after the guard and the evaluation, an error elsewhere, and any other route is refused |
| AnalysisGraph.LoadOk | src/data_agent/analysis_agent/nodes.py:410-445 | loading leads to planning or to `fail` |
| AnalysisGraph.PlanOk | src/data_agent/analysis_agent/nodes.py:448-593 | planning spends one step, within all limits, and hands the guard a complete decision or an error |
| AnalysisGraph.PlanGoesAheadIff | src/data_agent/analysis_agent/nodes.py:448-593 | a plan is announced if and only if the run is not stopped, there is room for the step, the replan and the model calls, an answer comes back, it repeats no answered question, and an act finds a step to start |
| AnalysisGraph.GuardOk | src/data_agent/analysis_agent/nodes.py:596-627 | the guard leads where the decision says, with everything the next node needs, or to `fail` |
| AnalysisGraph.ExecuteOk | src/data_agent/analysis_agent/nodes.py:630-691 | a tool call keeps the chain of counters and leaves an observation of the guarded action, or an error |
| AnalysisGraph.ObserveOk | src/data_agent/analysis_agent/nodes.py:694-744 | observing leaves at least one observation, unique ids and the plan's ids, or raises in a reducer |
| AnalysisGraph.EvaluateOk | src/data_agent/analysis_agent/nodes.py:747-808 | evaluating leads to an allowed route and leaves the budget as it was |
| AnalysisGraph.RequestOk | src/data_agent/analysis_agent/nodes.py:811-860 | the input node pauses, resumes the run or fails towards the planner |
| AnalysisGraph.SynthesizeOk | src/data_agent/analysis_agent/nodes.py:863-936 | synthesis leaves a draft within the budget, or an error |
| AnalysisGraph.ValidateOk | src/data_agent/analysis_agent/nodes.py:939-974 | validation passes a draft on or fails |
| AnalysisGraph.PersistOk | src/data_agent/analysis_agent/nodes.py:977-989 | persisting leads to the last node or to `fail` |
| AnalysisGraph.FinalizeOk | src/data_agent/analysis_agent/nodes.py:992-1009 | the last node completes the run with an ok response, or fails |
| AnalysisGraph.FailOk | src/data_agent/analysis_agent/nodes.py:1012-1067 | the failing node ends the run as cancelled or failed with a response that is not ok |
| AnalysisGraph.RunIsBounded | src/data_agent/analysis_agent/graph.py:92-101 | over all its legs a run completes at most six nodes for each agent step, and six more |
| AnalysisGraph.LegFitsRecursionLimit | src/data_agent/analysis_agent/graph.py:96-101 | every leg, with its interrupted attempt, stays below the recursion limit |
| AnalysisGraph.RoutingNeverRaises | src/data_agent/analysis_agent/routing.py:42-54 | from every reachable state every router finds an allowed route |
| AnalysisGraph.ErrorLeadsToFail | src/data_agent/analysis_agent/graph.py:364-369 | an error once set is never cleared, and leads only to `fail` and a response that is not ok |
| AnalysisGraph.StatusesAreLawful | src/data_agent/analysis_agent/state.py:111-124 | every status a run takes on is a transition of the table |
| AnalysisGraph.BudgetsOnlyGrow | src/data_agent/analysis_agent/nodes.py:455-458 | in every reachable state compiles, previews and executes together stay within tool calls, those within agent steps, those within the limit, replans within agent steps, each within its own limit; none ever decreases |
| AnalysisGraph.EvaluationIsDeterministic | src/data_agent/analysis_agent/nodes.py:754-775 | every reachable evaluation is free of model calls, and the node that follows and its error are decided by exactly the situation of each verdict |
| RunRecord.BudgetIsVisible | src/data_agent/analysis_agent/nodes.py:567-590 | agent steps, tool calls and answered clarifications are as many as the plans, completed tools and resumes emitted |
| NodeOutcomes.FailsForItsCause | src/data_agent/analysis_agent/nodes.py:336-1009 | in every run a node entered without an error leaves exactly the error of its cause, or none without a cause; it pauses if and only if it asks, unanswered and not stopped |
| NodeOutcomes.PlanLeaves | src/data_agent/analysis_agent/nodes.py:552-590 | a plan costs one step, the replan due and the model calls made, and counts as a revision if and only if it is one |
| NodeOutcomes.ExecuteLeaves | src/data_agent/analysis_agent/nodes.py:636-691 | a tool call costs one tool call and its own counter, and its observation waits to be recorded |
| NodeOutcomes.RequestLeaves | src/data_agent/analysis_agent/nodes.py:836-860 | an accepted answer is recorded, closes the question and asks for a replan |
| NodeOutcomes.SynthesizeLeaves | src/data_agent/analysis_agent/nodes.py:863-936 | the draft is the one that came back, or the empty one of plan mode, for one model call if there was time for it |
| NodeOutcomes.FailReports | src/data_agent/analysis_agent/nodes.py:1012-1067 | a failing run ends with the very error it came with, as cancelled if and only if that was the cause |
| RunRecord.EvidenceIsBacked | src/data_agent/analysis_agent/nodes.py:735-742 | in every reachable state artifacts and evidence are exactly those of the observations, and evidence has the artifact it cites |
| RunRecord.AnswerIsGrounded | src/data_agent/analysis_agent/nodes.py:953-958 | a run that completes has an answer whose evidence is all on record |
| RunRecord.EndedRunReports | src/data_agent/analysis_agent/nodes.py:1021-1103 | the response of an ended run is its whole record, and a failed run leaves no step running |
| RunStory.RunTellsAStory | src/data_agent/analysis_agent/nodes.py:533-734 | every payload may follow the one before it: a step starts only when the plan just announced shows it running with all it depends on completed or skipped, a tool only for that step, completing under its own call id, and is recorded next with exactly its artifacts and evidence |
| RunStory.OutcomeBelongsToItsStep | src/data_agent/analysis_agent/nodes.py:707-724 | an observation settles the very step announced before its tool, and no other |
| RunStory.ReplansAreAccounted | src/data_agent/analysis_agent/nodes.py:455-458 | replans charged or still owed are exactly the clarifications answered and the replan verdicts given |
| PlanExecution.SequenceKeptIff | src/data_agent/analysis_agent/nodes.py:533-562 | in every run, whoever plans, no step starts twice and each starts after what it depends on, at every point, if and only if every announced plan fits the steps started before it |
| PlanExecution.RecordKeptIff | src/data_agent/analysis_agent/planner.py:56-134 | in every run that resolver and planner drive as written, the plan is a record of the execution at every point if and only if every plan written by the planner over an existing one is in order with the steps started |
| PlanExecution.TakingUpRecords | src/data_agent/analysis_agent/nodes.py:464-498 | so it is when every such plan takes up where the run is |
| PlanExecution.ExecutionRespectsDependencies | src/data_agent/analysis_agent/nodes.py:533-562 | then no step starts twice, every started step is still in the plan, and what it depends on was started before it, or skipped and never started |
| PlanExecution.EveryPlanIsAcceptable | src/data_agent/public_contracts.py:22-27 | in every reachable state, failed and ended ones included, the plan and the decision pass all their validators again: the step graph, and unique dependencies, evidence entries and criteria |
| RunExamples.AStepStartsTwice | src/data_agent/analysis_agent/planner.py:158-161 | a dataset run in which the planner, after a failed inspection, starts the inspection step again |
| PlanExecution.ResolverAnswersPass | src/data_agent/analysis_agent/composition.py:249-487 | whatever the resolver answers in a reachable state passes every check of a decision and of its plan, the uniqueness of its lists included |
| DatasetResolver.FreshStepId | src/data_agent/analysis_agent/composition.py:758-762 | the loop ends, with the first free candidate |
| DatasetResolver.FirstFreeIsFree | src/data_agent/analysis_agent/composition.py:758-762 | that candidate is free and every earlier one is taken |
| DatasetResolver.AppendToolStep | src/data_agent/analysis_agent/composition.py:745-787 | the plan gains one pending step with a fresh id after everything done |
| DatasetResolver.ActingOnEdits | src/data_agent/analysis_agent/composition.py:615-662 | an act edits the plan once and names the step that the planning node will start |
| DatasetResolver.FinishingEdits | src/data_agent/analysis_agent/composition.py:664-734 | finishing skips what is left as one edit of the plan |
| DatasetResolver.ResolveIsSound | src/data_agent/analysis_agent/composition.py:249-487 | every decision leaves the plan or makes its next revision, keeps a valid plan valid (step graph, unique dependencies, evidence entries and criteria), adds at most the step it acts on, uses an allowed tool and starts the step it chose |
| DatasetResolver.DecisionsAreGrounded | src/data_agent/analysis_agent/composition.py:446-486 | data is read only through a prepared query without a result; a run finishes only with an evidenced artifact, or in plan mode with nothing to run the query |
| DatasetResolver.OnlyConsultingDepends | src/data_agent/analysis_agent/composition.py:523-552 | exactly the decisions that need a query not kept depend on the model's answer |
| ResolverChoices.ToolIff | src/data_agent/analysis_agent/composition.py:249-487 | every tool is chosen, with its arguments, if and only if the run is in the situation for it |
| ResolverChoices.RunsIff | src/data_agent/analysis_agent/composition.py:446-463 | a prepared query without a result is executed where allowed, and previewed only where executing is not |
| ResolverChoices.FinishIff | src/data_agent/analysis_agent/composition.py:461-487 | the resolver finishes if and only if what is wanted has its evidence, or plan mode cannot run its prepared query |
| ResolverChoices.AskIff | src/data_agent/analysis_agent/composition.py:381-430 | it asks if and only if the query it needs is unclear, and refuses one it cannot get or that is not supported |
| ResolverChoices.KeptQuery | src/data_agent/analysis_agent/composition.py:523-552 | a query is kept for the next call if and only if it was kept or just planned, and not clarified since |
| ResolverChoices.AsksFor | src/data_agent/analysis_agent/composition.py:386-430 | the question is worded by the proposal, else by the query, and leaves the plan as it is |
| ResolverChoices.FinishingLeavesNothing | src/data_agent/analysis_agent/composition.py:664-734 | finishing leaves no pending step, and with evidence no blocked one, and touches no other |
| ResolverChoices.ActingRevises | src/data_agent/analysis_agent/composition.py:615-662 | an act rewords its step only, for one revision, and keeps a plan worded right |
| ResolverChoices.AppendedWaits | src/data_agent/analysis_agent/composition.py:763-787 | an appended step waits for exactly the steps that are done |
| ResolverChoices.ResultArgumentsAre | src/data_agent/analysis_agent/composition.py:465-483 | evidence is asked for under the one output's name or a common key, for the outputs or the previewed columns |
| ResolverChoices.SemanticArtifactIs | src/data_agent/analysis_agent/composition.py:323-332 | the semantic artifact is the first of the last inspection that left one |
| DatasetResolver.ChargeIsExactIff | src/data_agent/analysis_agent/composition.py:185-247 | a model call is charged and not made, or made and not charged, in exactly the cases given by guards of the view |
| DatasetRuns.UnchargedOnlyAfterRewrite | src/data_agent/analysis_agent/composition.py:185-247 | in a run whose inspections leave one artifact each, a model call goes uncharged only if the planner wrote a plan over another |
| DatasetResolver.InspectsOnce | src/data_agent/analysis_agent/composition.py:302-345 | the resolver inspects the semantic binding only while no inspection has left an artifact |
| ChargeRuns.ACallGoesUncharged | src/data_agent/analysis_agent/composition.py:199-216 | a dataset run that comes to a decision which consults the model and is not charged |
| ChargeRuns.AChargeBuysNoCall | src/data_agent/analysis_agent/composition.py:185-194 | a dataset run that comes to a decision which is charged and consults no model |
| DatasetRuns.CatalogIsAllowed | src/data_agent/analysis_agent/composition.py:146-171 | wherever a run asks its resolver to go on with a plan, the catalog inspection is allowed, so that case of an uncharged call never occurs |
| DatasetResolver.DatasetNextActionResolver.InitialDecision | src/data_agent/analysis_agent/composition.py:146-183 | the first decision inspects the catalog, or gives up when it may not |
| DatasetResolver.DatasetNextActionResolver.PlanQuery | src/data_agent/analysis_agent/composition.py:523-552 | the query program is built once and kept |
| DatasetResolver.DatasetNextActionResolver.Call | src/data_agent/analysis_agent/composition.py:249-487 | a call answers and updates its cache as the resolution says |
| GraphStream.AStreamEvents | src/data_agent/analysis_agent/graph.py:184-241 | the translating loop numbers events, holds the terminal payload for its response and raises as specified |
| GraphStream.RestartContinues | src/data_agent/analysis_agent/graph.py:195-241 | a stream started at the next sequence continues the one before |
| GraphStream.StreamErrorIff | src/data_agent/analysis_agent/graph.py:195-241 | the loop raises if and only if a terminal payload comes while another waits for its response, or one still waits at the end |
| GraphStream.StreamIsAccepted | src/data_agent/analysis_agent/graph.py:195-241 | over any number of legs every event of a run is accepted by the log, whose status says where the run stands |
| GraphStream.OneTerminalEvent | src/data_agent/analysis_agent/nodes.py:992-1067 | an ended run has one terminal event, its last, ok if and only if it is `run_completed` |
| GraphStream.StreamIsStored | src/api/run_streams.py:95-157 | the store takes every event of the stream of a new run in a free conversation |
| GraphStream.LegsAreOneStream | src/data_agent/analysis_agent/graph.py:184-195 | cutting a run at its waits changes nothing in its events |
| GraphStream.InitFailureIsRejected | src/data_agent/analysis_agent/nodes.py:341-363 | a run refused by its first node emits one event that the log rejects |
| GraphStream.RefusedResumeIsAcceptedIff | src/data_agent/analysis_agent/nodes.py:1190-1216 | after a refused resume message the stream is accepted if and only if a guard of the planning node stops it |
| RunExamples.EmptyAnswerIsRejected | src/data_agent/analysis_agent/nodes.py:811-860 | a paused run whose empty answer is refused, whose planner goes on, and whose stream the log rejects |
| RunEventStore.AcceptedIffShape | src/api/run_streams.py:95-144 | the event-by-event checks accept exactly the logs numbered from 0 that begin with `run_started`, end at a terminal event and alternate waits and resumes |
| RunEventStore.StatusIsLast | src/api/run_streams.py:146-157 | the stored status is decided by the last event |
| RunEventStore.AppendKeepsLog | src/api/run_streams.py:47-194 | an append adds one accepted event at the end of its own run, or changes nothing |
| RunEventStore.AppendStoresIff | src/api/run_streams.py:95-144 | an event is stored if and only if its log accepts it, its conversation is free and its owner unchanged |
| RunEventStore.ReappendIsNoOp | src/api/run_streams.py:57-94 | appending a stored event again changes nothing |
| RunEventStore.RefusedIff | src/api/run_streams.py:57-144 | each reason for which an event is not stored, if and only if |
| RunEventStore.OneActiveRunKeptIff | src/api/run_streams.py:158-178 | an append keeps at most one active run per conversation unless it attaches a busy conversation late |
| RunEventStore.LateAttachWitness | src/api/run_streams.py:165-168 | two runs for which it does not |
| RunEventStore.HistoryIsSafe | src/api/run_streams.py:95-144 | over all histories that pass a conversation with sequence 0 only, logs are well formed and a conversation has at most one active run |
| RunEventStore.HistoryOnlyGrows | src/api/run_streams.py:118-131 | logs only grow, owners stay, and a closed run never changes |
| RunEventStore.AcceptedStreamIsStored | src/api/run_streams.py:47-194 | no append of an accepted stream of a new run is refused |
| RunEventStore.PagingReadsTheRest | src/api/run_streams.py:196-229 | paging from the last seen sequence reads the rest of the log exactly once |
| RunEventStore.Store.Append | src/api/run_streams.py:47-194 | the two tables stay an exact image of the log, and the answer is the log's |
| RunEventStore.PageIs | src/api/run_streams.py:196-229 | a page holds the events after the number given, in order, as many as there are or may be |
| RunEventStore.StripIs | src/api/run_streams.py:54-55 | a conversation id loses the blanks at both ends and nothing else |
| RunEventStore.Store.Replay | src/api/run_streams.py:196-229 | the selected rows are the page of the log, in order |
| RunEventStore.Store.Status | src/api/run_streams.py:251-269 | the row read is the status of the run's log |
| RunEventStore.Store.LastSequence | src/api/run_streams.py:271-289 | the number read is one less than the length of the log |
| RunEventStore.Store.EnsureConversationAvailable | src/api/run_streams.py:291-315 | it passes if and only if no active run holds the conversation |
| RunCoordinator.EveryInterleavingIsSafe | src/api/run_streams.py:428-490 | under every interleaving each reservation and active slot has exactly one owner, who finds its own task there, what was yielded is stored, and a conversation has at most one active run |
| RunCoordinator.NeverConflicts | src/api/run_streams.py:441-458 | a stream that won its reservation never meets a conversation conflict |
| RunCoordinator.FailedClaimNeverEvicts | src/api/run_streams.py:466-490 | under every interleaving a stream that finds its slot taken fails its claim, and whatever follows in whatever order, every owner keeps its slot until its own release |
| RunCoordinator.EntersIff | src/api/run_streams.py:441-458 | under every interleaving a stream is let in if and only if no other reserves its conversation and no active run holds it |
| RunCoordinator.ClaimsIff | src/api/run_streams.py:466-473 | a claim succeeds if and only if no stream owns the run |
| RunCoordinator.YieldsIff | src/api/run_streams.py:474-481 | an event is handed on if and only if the log has it then |
| RunCoordinator.HandedOnInOrder | src/api/run_streams.py:460-481 | a stream hands on what it received, in that order and without a gap |
| RunCoordinator.GoneLeaveNothing | src/api/run_streams.py:482-490 | when every stream is gone no slot is left taken |
| RunCoordinator.FailedClaimKeepsOwnerIff | src/api/run_streams.py:466-490 | without the promise of one task a stream, a slot in use survives the release after a failed claim if and only if it holds another task, whatever others did between |
| RunCoordinator.SharedTaskEvicts | src/api/run_streams.py:466-490 | a history of two streams of one task in which the failed claim evicts the owner |
| RunCoordinator.Coordinator.ReserveConversation | src/api/run_streams.py:441-458 | the first lock section is its atomic step |
| RunCoordinator.Coordinator.ClaimRun | src/api/run_streams.py:466-473 | the second lock section is its atomic step, and claims a slot only when it is free |
| RunCoordinator.Coordinator.StoreEvent | src/api/run_streams.py:474-481 | an event is yielded only after the store has it |
| RunCoordinator.Coordinator.LeaveRun | src/api/run_streams.py:482-490 | leaving frees the run slot of this task |
| RunCoordinator.Coordinator.LeaveConversation | src/api/run_streams.py:482-490 | leaving frees the reservation of this task |
| RunCoordinator.Coordinator.NextSequence | src/api/run_streams.py:528-540 | a resumed run restarts after the last stored number |
| EventStreamWire.ReadAgentEventStream | frontend/src/api.ts:455-513 | whatever the chunks, the incremental reader answers as if the whole text were split once |
| EventStreamWire.FramesResume | frontend/src/api.ts:495-509 | splitting a prefix and then its rest with what follows is splitting the whole |
| EventStreamWire.PrintThenRead | src/api/routes.py:1552-1561 | reading printed events back in any chunks is handing them over one by one |
| StreamReading.ReadTextIs | frontend/src/api.ts:455-513 | the answer to any text: the events of its frames and its unfinished rest, up to the first malformed one or the second response |
| StreamReading.FramesCut | frontend/src/api.ts:495-509 | the frames are the pieces between blank lines of either kind of line end, and the rest holds none |
| StreamReading.LinesCutAt | frontend/src/api.ts:466-467 | the lines of a frame are the pieces between line ends |
| StreamReading.DataIs | frontend/src/api.ts:466-470 | a payload has one trimmed part for each data line, in order |
| StreamReading.JoinedLinesComeBack | frontend/src/api.ts:466-470 | payload lines joined by line feeds come back as they were |
| StreamReading.EventsComeTo | frontend/src/api.ts:475-513 | with one response at most all events are handed over, and the answer is the response, else the last wait, else an error |
| StreamReading.SecondResponseStops | frontend/src/api.ts:483-491 | a second response ends the reading with an error |
| EventStreamWire.CollectRunResult | src/api/routes.py:1447-1472 | the collector succeeds if and only if exactly one event closes the stream, and returns that one |
| EventStreamWire.ReadersAgree | frontend/src/api.ts:465-513 | on such a stream the browser's reader returns the same |
| RunReplica.HydrateIsReplica | frontend/src/agent/agentRunState.ts:105-222 | stored events in any order and with repetitions hydrate to the in-order replica, never fail, show the stored status, and ask for input if and only if the run waits |
| RunReplica.ReplicaShowsLog | frontend/src/agent/agentRunState.ts:114-222 | receiving a stored log in order never fails, and shows the stored status and the open question |
| RunReplica.InterleavedResumes | frontend/src/agent/agentRunState.ts:78-103 | fresh events, repeats and resume requests in any interleaving leave the replica of what arrived |
| ReplicaContents.ReplicaHoldsLog | frontend/src/agent/agentRunState.ts:135-222 | the copy of a log holds its tool calls with their outcomes, its observations, the last artifact and evidence of each id, and the announced plan with the steps started since, until the response replaces it |
| ReplicaContents.HydratedHoldsLog | frontend/src/agent/agentRunState.ts:105-112 | so does a copy hydrated from the events in any order, with repetitions |
| ReplicaContents.EndedHere | frontend/src/agent/agentRunState.ts:88-101 | a run ended in the browser shows that status, no question and no running work, and keeps the rest |
| RunReplica.RejectsIff | frontend/src/agent/agentRunState.ts:114-126 | the copy rejects another event under a known number, another run and a gap, each if and only if |
| RunReplica.ResumeIsForgotten | frontend/src/agent/agentRunState.ts:78-103 | a resume request is erased by the next fresh event |
| RunReplica.FailedRunShowsNoWork | frontend/src/agent/agentRunState.ts:224-241 | a failed run shows no running step and no running call |
| RunReplica.MergeKeepsLast | frontend/src/agent/agentRunState.ts:254-258 | merging keeps one item per id, the last seen |
| EndToEnd.LegClosesOnce | src/data_agent/analysis_agent/runtime.py:446-546 | every whole leg of a run closes its stream exactly once, with its last event |
| EndToEnd.BrowserReadsTheLeg | frontend/src/api.ts:455-513 | in any chunks, the browser reads a leg's events in order and then its one closing event |
| EndToEnd.ScreenShowsTheRun | frontend/src/agent/agentRunState.ts:105-222 | from a run's events in any order the browser shows where the run stands, with a question open if and only if it waits |
| ScreenRecord.EndedScreenShowsRecord | frontend/src/agent/agentRunState.ts:114-222 | from an ended run's events in any order the browser shows its response, its plan, every recorded artifact and piece of evidence, and beyond them exactly what a stopped tool brought unobserved |
| ScreenRecord.ScreenIsRecordIff | frontend/src/agent/agentRunState.ts:254-258 | it shows exactly the recorded ids if and only if whatever was brought unobserved was on record |
| AuthStore.ChainsAreSafe | src/api/auth_store.py:153-239 | after any history replaced tokens form chains of one user without loops or merges, all but the last revoked, and the hash index is a bijection |
| AuthStore.HistoryOnlyRevokes | src/api/auth_store.py:153-239 | tokens are only ever revoked, and no link is undone |
| AuthStore.RotationIsFinal | src/api/auth_store.py:197-234 | a rotation leaves the new token usable until it expires and the old one refused ever after |
| AuthStore.ActiveIff | src/api/auth_store.py:153-239 | over every history a token is usable if and only if it was given, valid at that time, and nothing ended it since |
| AuthStore.RevocationIsFinal | src/api/auth_store.py:236-239 | a revoked token is refused ever after, dated by its first revocation, and nothing else changes |
| AuthStore.RevocationNeedsMatch | src/api/auth_store.py:236-239 | a revocation that matches no token changes nothing |
| AuthStore.StoringIssues | src/api/auth_store.py:153-184 | a token is refused if and only if its id or hash is taken, and otherwise stored unused and usable until it expires |
| AuthStore.UsingStamps | src/api/auth_store.py:186-195 | using an active token stamps it and changes nothing else |
| AuthStore.RefusalNames | src/api/auth_store.py:153-234 | which refusal is named, if and only if |
| AuthStore.InMemoryAuthStore.FindUserByLogin | src/api/auth_store.py:89-94 | a login finds exactly the tenant's user of that name |
| AuthStore.InMemoryAuthStore.UpsertUser | src/api/auth_store.py:100-144 | refused if and only if another user has the name, changing nothing; otherwise the user is written and the login index stays exact |
| AuthStore.InMemoryAuthStore.RecordLogin | src/api/auth_store.py:146-151 | stamps an existing user and nothing else |
| AuthStore.InMemoryAuthStore.StoreRefreshToken | src/api/auth_store.py:153-184 | stores a new token or changes nothing |
| AuthStore.InMemoryAuthStore.GetActiveRefreshToken | src/api/auth_store.py:186-195 | returns and stamps a token if and only if it is active |
| AuthStore.InMemoryAuthStore.RotateRefreshToken | src/api/auth_store.py:197-234 | replaces an active token of the user, or changes nothing |
| AuthStore.InMemoryAuthStore.RevokeRefreshToken | src/api/auth_store.py:236-239 | revokes a matching live token at this time, and changes nothing else |
| IsoInstant.TextOrderIsTimeOrder | src/data_agent/analysis_agent/artifacts.py:452-460 | comparing ISO texts is comparing times, with or without fractions (compare section 5.1 of RFC 3339) |
| IsoInstant.IsoRoundTrip | src/data_agent/analysis_agent/artifacts.py:514-526 | a stored time reads back |
| IsoInstant.AddSecondsIsExact | src/data_agent/analysis_agent/artifacts.py:288-289 | the expiry is exactly the retention after the creation on the time line of the calendar, and there is none only past its last instant |
| IsoInstant.CalendarIsGregorian | src/data_agent/analysis_agent/artifacts.py:288-289 | the day count is the closed form of the Gregorian calendar, and each month has its days |
| IsoInstant.DayLater | src/data_agent/analysis_agent/artifacts.py:288-289 | 86,400 seconds later is the same time of the next day |
| ArtifactStore.ReadableUntilExpiry | src/data_agent/analysis_agent/artifacts.py:398-474 | a put is readable until a deletion at or after its expiry, and gone after it unless put again |
| ArtifactStore.RepeatedPutIsStable | src/data_agent/analysis_agent/artifacts.py:298-335 | while it lives, a call answers repeated puts with its first reference, rejects any other content, and changes nothing |
| ArtifactStore.FreshPutResult | src/data_agent/analysis_agent/artifacts.py:387-396 | a first put answers with what was asked for and the time of the put |
| ArtifactStore.UnwritableIff | src/data_agent/analysis_agent/artifacts.py:133-157 | a write is refused for no second of retention, its size, or an expiry past the calendar, in this order |
| ArtifactStore.PutRefusedIff | src/data_agent/analysis_agent/artifacts.py:298-335 | any other put is refused if and only if its call has a row it does not repeat |
| ArtifactStore.ReadIff | src/data_agent/analysis_agent/artifacts.py:398-427 | a payload is read if and only if the file of the row is whole and unaltered, and the error says what is missing |
| ArtifactStore.HistoryKeepsTable | src/data_agent/analysis_agent/artifacts.py:240-257 | one row a call and times that read back, whatever happens to the files |
| ArtifactStore.HistoryKeepsFiles | src/data_agent/analysis_agent/artifacts.py:337-385 | undisturbed, exactly one intact file a row |
| ArtifactStore.SQLiteArtifactStore.PutJson | src/data_agent/analysis_agent/artifacts.py:268-396 | writes the row and the file of a new call, or answers from the table, or changes nothing |
| ArtifactStore.SQLiteArtifactStore.GetJson | src/data_agent/analysis_agent/artifacts.py:398-427 | what comes back is what was put under the id, whatever was done to the files |
| ArtifactStore.SQLiteArtifactStore.ReadAndVerify | src/data_agent/analysis_agent/artifacts.py:491-511 | a missing, oversized or altered file is an integrity error |
| ArtifactStore.SQLiteArtifactStore.ListForRun | src/data_agent/analysis_agent/artifacts.py:429-446 | all references of the run, oldest first |
| ArtifactStore.SQLiteArtifactStore.DeleteExpired | src/data_agent/analysis_agent/artifacts.py:448-474 | exactly the unretained expired rows go, with their files, earliest expiry first |
| InlineMarkdown.ParseInlineSegments | frontend/src/markdown.ts:23-54 | the cursor loop ends with the segments of the text |
| InlineMarkdown.PrintParsed | frontend/src/markdown.ts:23-84 | printing the parsed segments with their markers gives back the text |
| InlineMarkdown.ParsedIsCanonical | frontend/src/markdown.ts:56-84 | no two neighbouring texts, no marker inside its own span, no span left in a text |
| InlineMarkdown.ParseInvertsPrint | frontend/src/markdown.ts:23-84 | parsing and printing are inverse bijections between texts and canonical segment lists |

## Left out

- The language models, their prompts and repair loops, and what the tools do: their answers are arbitrary valid values.
- The internals of SQLite, asyncio and LangGraph, including cancellation that arrives while a store write is under way or inside a `finally`, and cancellation of a stream between its closing event and its end.
- `_stream` in `runtime.py` beyond the failure event it adds when the graph stops without closing; `cancel_waiting`, `cancel_orphaned` and the checkpoint handling.
- Two values of the stored status that only older rows hold (`run_completed`, `run_failed`).
- The decoding of UTF-8 across chunks and the byte order mark in the browser: chunks are texts.
- JSON text, schema validators of the browser and details of event payloads that nothing here reads (display names, rationales, the text of the goal).
- The logical query planner, metric proposals and their wording, the regular expressions that classify a question, and the localized summaries: the resolver gets their results.
- `_clarified_metric_plan` and `_append_evidence_step`, which nothing calls.
- ArtifactStore.SQLiteArtifactStore.ListForRun: does not order rows of equal creation time by artifact id, because ids are opaque here.
- ArtifactStore.SQLiteArtifactStore.DeleteExpired: does not order rows of equal expiry by artifact id, because ids are opaque here, and describes the path on which no file operation fails.
- The safe preview of artifacts, path checks, the request fields' own format checks and the cleaning up after a failed file write.
- User agents and client addresses of refresh tokens, the Postgres store, password hashing and JWT.
- React components, formatting, HTTP plumbing and the block structure of markdown.
- The analysis runtime, query compiler, relationship router, datasource registry and metric governance, which are not part of this model.
