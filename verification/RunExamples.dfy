/**
 * Two concrete runs: one in which the planner starts a step again, and one whose stream is rejected
 * after a refused resume message.
 */
module RunExamples {
  import opened Outcomes
  import opened AgentModels
  import opened AgentRouting
  import opened AgentGuard
  import opened AgentReducers
  import opened AgentEvaluator
  import opened AnalysisGraph
  import opened AnalysisPlanner
  import opened PlanGraph
  import opened PlanExecution
  import Resolver = DatasetResolver
  import Stream = GraphStream
  import Log = RunEventStore

  const PINS := SourcePins("source", 1, "binding", 1)

  const LIMITS := RunBudget(9, 9, 9, 9, 9, 9, 9, 100)

  function SetupWith(hasResolver: bool): Setup {
    Setup("run", DatasetAuthority(PINS, "schema", ExecuteMode), ExecuteMode, None, LIMITS,
          map["catalog.inspect" := ToolSpec(true, {ExecuteMode}, (arguments: string) => true)],
          hasResolver, (text: string) => text, (action: AgentAction) => action.actionId)
  }

  const FAILURE := AgentError(INTERNAL_ERROR, false)

  /** The clock stands still; only the context loads, and every other call raises. */
  const QUIET := Env(0, false, Returned(["catalog.inspect"]), Raised(FAILURE), false, Raised(FAILURE), Raised(FAILURE),
      Raised(FAILURE),
                     None, Raised(FAILURE), false, Raised(FAILURE), None, None)

  const STARTED := INITIAL.(status := AgentRunning,
                            budget := NO_BUDGET.(startedAt := 0, deadlineAt := 100),
                            nextRoute := Some(LoadContext))

  const LOADED := STARTED.(allowedTools := ["catalog.inspect"], nextRoute := Some(PlanOrReplan))

  /** One move of a concrete run: what it says and where it leads. */
  predicate Goes(setup: Setup, c: Config, m: Move, payloads: seq<EventData>, next: Config) {
    Enabled(c, m) && TurnOf(setup, c, m).Finished? && TurnOf(setup, c, m).payloads == payloads
        && Next(setup, c, m) == next
  }

  lemma Extended(setup: Setup, moves: seq<Move>, m: Move, payloads: seq<EventData>, next: Config)
    requires Goes(setup, Reach(setup, moves), m, payloads, next)
    ensures Reach(setup, moves + [m]) == next
    ensures Started(setup, moves + [m]) == Started(setup, moves) + StartedBy(payloads)
  {
    hide TurnOf, Next, StartedBy;
    assert (moves + [m])[..|moves|] == moves;
  }

  lemma NoneStarted(payloads: seq<EventData>)
    requires |payloads| <= 2 && forall d | d in payloads :: !d.StepStarted?
    ensures StartedBy(payloads) == []
  {
    NothingStarted(payloads);
  }

  lemma StartReached(hasResolver: bool)
    ensures Reach(SetupWith(hasResolver), [Advance(QUIET)]) == At(LoadContext, STARTED)
  {
    assert [Advance(QUIET)][..0] == [];
  }

  lemma FirstReached(hasResolver: bool)
    ensures Reach(SetupWith(hasResolver), FIRST) == At(PlanOrReplan, LOADED)
    ensures Started(SetupWith(hasResolver), FIRST) == []
  {
    var setup := SetupWith(hasResolver);
    assert Goes(setup, At(InitializeRun, INITIAL), Advance(QUIET), [RunStarted], At(LoadContext, STARTED));
    assert Goes(setup, At(LoadContext, STARTED), Advance(QUIET), [ContextResolved], At(PlanOrReplan, LOADED));
    hide TurnOf, Next, Goes;
    Extended(setup, [], Advance(QUIET), [RunStarted], At(LoadContext, STARTED));
    assert [] + [Advance(QUIET)] == [Advance(QUIET)] && FIRST == [Advance(QUIET)] + [Advance(QUIET)];
    Extended(setup, [Advance(QUIET)], Advance(QUIET), [ContextResolved], At(PlanOrReplan, LOADED));
    NoneStarted([RunStarted]);
    NoneStarted([ContextResolved]);
  }

  const FIRST := [Advance(QUIET), Advance(QUIET)]

  // ---- a step started twice ----

  const TOOLS := Resolver.Tools(
    (text: string) => text, (arguments: Resolver.ToolArguments) => "", (runId: string) => "plan",
    (plan: AnalysisPlan, stepId: string, toolName: string, arguments: Resolver.ToolArguments) => "first",
    (prompt: string) => "ask", [])

  function PlanAt(revision: int, status: StepStatus): AnalysisPlan {
    AnalysisPlan("plan", revision,
                 [AnalysisStep("inspect_catalog", "Inspect the pinned dataset catalog", status, [],
                     ["catalog artifact"])],
                 ["Answer with validated governed evidence"])
  }

  function Inspecting(revision: int, status: StepStatus, actionId: string): PlannerDecision {
    PlannerDecision(PlanAt(revision, status), Act, Some(AgentAction(actionId, "catalog.inspect", "")), None, None)
  }

  const TIMEOUT := Observation("o", "first", "catalog.inspect", false, "", [], [], [],
      Some(AgentError(INTERNAL_ERROR, true)))

  const PLAN_FIRST := Advance(QUIET.(initialDecision := Returned(Some(Inspecting(1, StepPending, "first")))))
  const RUN_TOOL := Advance(QUIET.(observed := Returned(TIMEOUT)))
  const PLAN_AGAIN := Advance(QUIET.(resolved := Returned(None),
      planned := Returned(Inspecting(2, StepPending, "second"))))

  const PLANNED := LOADED.(
    plan := Some(PlanAt(1, StepRunning)),
    plannerDecision := Some(Inspecting(1, StepRunning, "first")),
    pendingAction := Some(AgentAction("first", "catalog.inspect", "")),
    actionSteps := map["first" := "inspect_catalog"],
    budget := LOADED.budget.(agentSteps := 1),
    planRevisionCount := 1,
    nextRoute := None)

  const GUARDED := PLANNED.(nextRoute := Some(ExecuteTool))

  const CALLED := GUARDED.(
    budget := GUARDED.budget.(toolCalls := 1), pendingObservation := Some(TIMEOUT), nextRoute := Some(ObserveResult))

  const OBSERVED := CALLED.(
    plan := Some(PlanAt(1, StepBlocked)), observations := [TIMEOUT], pendingObservation := None,
        nextRoute := Some(EvaluateProgress))

  const VERDICT := EvaluationDecision(Replan, false, [], ["successful tool result"],
      ["tool_error:" + CodeName(INTERNAL_ERROR)], None)

  const EVALUATED := OBSERVED.(evaluation := Some(VERDICT), replanRequested := true, nextRoute := Some(PlanOrReplan))

  const RETRY := FIRST + [PLAN_FIRST] + [Advance(QUIET)] + [RUN_TOOL] + [Advance(QUIET)] + [Advance(QUIET)]
      + [PLAN_AGAIN]

  const DATASET := SetupWith(true)

  const INSPECTION := StepStarted("inspect_catalog", "Inspect the pinned dataset catalog")

  lemma PlansFirst()
    ensures Goes(DATASET, At(PlanOrReplan, LOADED), PLAN_FIRST, [PlanUpdated(PlanAt(1, StepRunning)), INSPECTION],
            At(GuardDecision, PLANNED))
  {
    hide Consume, FirstRunnable, SetStatus, GuardPlannerDecision, ProgressDecision;
    var s, d := LOADED, Inspecting(1, StepPending, "first");
    ConsumeOne(s.budget, LIMITS, AgentSteps);
    FirstOfOne(d.plan.steps);
    assert SetStatus(d.plan.steps, "inspect_catalog", StepRunning) == PlanAt(1, StepRunning).steps;
    assert Decide(DATASET, s, s.budget.(agentSteps := 1), PLAN_FIRST.env)
           == Returned(Choice(d, s.budget.(agentSteps := 1)));
    assert Plan(DATASET, s, PLAN_FIRST.env) == Planned(s, d, s.budget.(agentSteps := 1), Some(0));
    assert Planned(s, d, s.budget.(agentSteps := 1), Some(0)).state == PLANNED;
  }

  lemma FirstOfOne(steps: seq<AnalysisStep>)
    requires |steps| == 1 && steps[0].status.StepPending? && steps[0].dependsOn == []
    ensures FirstRunnable(steps) == Some(0)
  {
    assert Runnable(steps, steps[0]);
  }

  lemma GuardsIt()
    ensures Goes(DATASET, At(GuardDecision, PLANNED), Advance(QUIET), [], At(ExecuteTool, GUARDED))
  {
  }

  lemma CallsIt()
    ensures var starting, completed := ToolStarted("first", "first", "catalog.inspect"),
            ToolCompleted("first", "first", false, [], []);
            Goes(DATASET, At(ExecuteTool, GUARDED), RUN_TOOL, [starting, completed], At(ObserveResult, CALLED))
  {
    ConsumeOne(GUARDED.budget, LIMITS, ToolCalls);
  }

  lemma ObservesIt()
    ensures Goes(DATASET, At(ObserveResult, CALLED), Advance(QUIET), [ObservationRecorded("o", "first", "", [], [])],
            At(EvaluateProgress, OBSERVED))
  {
    assert SetStatus(PlanAt(1, StepRunning).steps, "inspect_catalog", StepBlocked) == PlanAt(1, StepBlocked).steps;
    FirstMerged(ObservationKey, TIMEOUT);
  }

  lemma FirstMerged<T>(id: T -> string, item: T)
    ensures MergeAll([], id, [item]) == Returned([item])
  {
    assert [item][..0] == [] && [] + [item] == [item];
    assert !Contains([], id, id(item));
  }

  lemma EvaluatesIt()
    ensures Goes(DATASET, At(EvaluateProgress, OBSERVED), Advance(QUIET), [], At(PlanOrReplan, EVALUATED))
  {
    var s := OBSERVED;
    assert s.plan.value.steps[..0] == [];
    assert CompletedIds(s.plan.value.steps) == [];
    assert Missing(FirstOccurrences(ClaimKeys([])), []) == [];
    assert s.observations[|s.observations| - 1] == TIMEOUT;
    var keys := FirstOccurrences(ClaimKeys(s.evidence));
    assert DeterministicDecision(s.plan.value, DATASET.authority, "run", s.observations, s.artifacts, s.evidence, keys,
           [], false)
           == Some(VERDICT);
    assert ProgressDecision(s.plan.value, DATASET.authority, "run", s.observations, s.artifacts, s.evidence)
           == Some(VERDICT);
  }

  const AGAIN := Inspecting(2, StepPending, "second")

  const SPENT := EVALUATED.budget.(agentSteps := 2, replans := 1, modelCalls := 1)

  lemma PlansAgain()
    ensures Goes(DATASET, At(PlanOrReplan, EVALUATED), PLAN_AGAIN, [PlanUpdated(PlanAt(2, StepRunning)), INSPECTION],
                 At(GuardDecision, Planned(EVALUATED, AGAIN, SPENT, Some(0)).state))
  {
    hide Consume, FirstRunnable, SetStatus, GuardPlannerDecision, ProgressDecision;
    var s := EVALUATED;
    var stepped := s.budget.(agentSteps := 2, replans := 1);
    ConsumeTwo(s.budget, LIMITS, AgentSteps, Replans);
    ConsumeOne(stepped, LIMITS, ModelCalls);
    FirstOfOne(AGAIN.plan.steps);
    assert SetStatus(AGAIN.plan.steps, "inspect_catalog", StepRunning) == PlanAt(2, StepRunning).steps;
    assert Decide(DATASET, s, stepped, PLAN_AGAIN.env) == Returned(Choice(AGAIN, SPENT));
    assert Plan(DATASET, s, PLAN_AGAIN.env) == Planned(s, AGAIN, SPENT, Some(0));
  }

  // ---- the run is one the resolver and the planner drive ----

  lemma DrivenFirst()
    ensures Driven(DATASET, TOOLS, LOADED, PLAN_FIRST.env)
  {
    assert "catalog.inspect" in AllowedSpecs(DATASET, LOADED);
    assert Resolver.FirstDecision(TOOLS, "run", AllowedSpecs(DATASET, LOADED).Keys)
           == Inspecting(1, StepPending, "first");
  }

  lemma DrivenAgain()
    ensures Driven(DATASET, TOOLS, EVALUATED, PLAN_AGAIN.env)
  {
    var s := EVALUATED;
    var question := Resolver.Question(false, false);
    var v := Resolver.ViewOf(s, ExecuteMode, AllowedSpecs(DATASET, s).Keys, question);
    assert v.observations[|v.observations| - 1] == TIMEOUT;
    assert Resolver.Resolve(TOOLS, None, v, Raised(FAILURE), None).decision == Returned(None);
    FirstOfOne(AGAIN.plan.steps);
    SomeRunnable(AGAIN.plan.steps);
    assert "catalog.inspect" in AllowedSpecs(DATASET, s);
    assert ValidateDecision(AGAIN, s.plan, AllowedSpecs(DATASET, s)).None?;
  }

  /** A driven run goes on by one concrete move. */
  lemma DrivenMore(moves: seq<Move>, c: Config, m: Move, payloads: seq<EventData>, next: Config)
    requires DrivenRun(DATASET, TOOLS, moves) && Reach(DATASET, moves) == c
    requires Goes(DATASET, c, m, payloads, next) && (AtPlanning(c) ==> Driven(DATASET, TOOLS, c.state, m.env))
    ensures DrivenRun(DATASET, TOOLS, moves + [m]) && Reach(DATASET, moves + [m]) == next
    ensures Started(DATASET, moves + [m]) == Started(DATASET, moves) + StartedBy(payloads)
  {
    hide Driven, Reach, Goes, StartedBy;
    assert (moves + [m])[..|moves|] == moves;
    Extended(DATASET, moves, m, payloads, next);
  }

  lemma OneStepIsAcceptable(plan: AnalysisPlan)
    requires |plan.steps| == 1 && plan.steps[0].dependsOn == []
    ensures AcceptablePlan(plan.steps)
  {
    assert IsTopologicalOrder(plan.steps, StepIds(plan.steps));
  }

  lemma RetryIsValid()
    ensures MovesValid(RETRY)
  {
    OneStepIsAcceptable(PlanAt(1, StepPending));
    OneStepIsAcceptable(PlanAt(2, StepPending));
    assert EnvValid(QUIET) && EnvValid(PLAN_FIRST.env) && EnvValid(RUN_TOOL.env) && EnvValid(PLAN_AGAIN.env);
    hide EnvValid;
    assert forall m | m in RETRY :: m in {Advance(QUIET), PLAN_FIRST, RUN_TOOL, PLAN_AGAIN};
  }

  lemma FirstDriven()
    ensures DrivenRun(DATASET, TOOLS, FIRST)
  {
    StartReached(true);
    hide Driven;
    var one := [Advance(QUIET)];
    assert one[..0] == [] && DrivenRun(DATASET, TOOLS, []) && Reach(DATASET, []).state == INITIAL;
    hide Reach;
    assert DrivenRun(DATASET, TOOLS, one);
    assert FIRST[..1] == one && Reach(DATASET, one).state == STARTED && FIRST[1].env == QUIET;
    assert DrivenRun(DATASET, TOOLS, FIRST);
  }

  lemma StartsSaid()
    ensures StartedBy([PlanUpdated(PlanAt(1, StepRunning)), INSPECTION]) == ["inspect_catalog"]
    ensures StartedBy([PlanUpdated(PlanAt(2, StepRunning)), INSPECTION]) == ["inspect_catalog"]
  {
    forall plan ensures StartedBy([PlanUpdated(plan), INSPECTION]) == ["inspect_catalog"] {
      NoneStarted([PlanUpdated(plan)]);
      assert [PlanUpdated(plan), INSPECTION][..1] == [PlanUpdated(plan)];
    }
  }

  /** Up to the tool call: the inspection was started once. */
  lemma StartedOnce(moves: seq<Move>)
    requires moves == FIRST + [PLAN_FIRST] + [Advance(QUIET)] + [RUN_TOOL]
    ensures DrivenRun(DATASET, TOOLS, moves) && Reach(DATASET, moves) == At(ObserveResult, CALLED)
    ensures Started(DATASET, moves) == ["inspect_catalog"]
  {
    hide Goes, Driven, StartedBy, Reach, DrivenRun, Started;
    FirstReached(true);
    FirstDriven();
    PlansFirst();
    DrivenFirst();
    DrivenMore(FIRST, At(PlanOrReplan, LOADED), PLAN_FIRST, [PlanUpdated(PlanAt(1, StepRunning)), INSPECTION],
        At(GuardDecision, PLANNED));
    GuardsIt();
    DrivenMore(FIRST + [PLAN_FIRST], At(GuardDecision, PLANNED), Advance(QUIET), [], At(ExecuteTool, GUARDED));
    CallsIt();
    var said := [ToolStarted("first", "first", "catalog.inspect"), ToolCompleted("first", "first", false, [], [])];
    DrivenMore(FIRST + [PLAN_FIRST] + [Advance(QUIET)], At(ExecuteTool, GUARDED), RUN_TOOL, said,
        At(ObserveResult, CALLED));
    StartsSaid();
    NoneStarted([]);
    NoneStarted(said);
  }

  /** Then the failure is recorded, and the evaluator asks for a replan. */
  lemma ReplanAskedFor(moves: seq<Move>)
    requires moves == FIRST + [PLAN_FIRST] + [Advance(QUIET)] + [RUN_TOOL]
    ensures var longer := moves + [Advance(QUIET)] + [Advance(QUIET)];
            && DrivenRun(DATASET, TOOLS, longer) && Reach(DATASET, longer) == At(PlanOrReplan, EVALUATED)
            && Started(DATASET, longer) == ["inspect_catalog"]
  {
    hide Goes, Driven, StartedBy, Reach, DrivenRun, Started;
    StartedOnce(moves);
    ObservesIt();
    var recorded := [ObservationRecorded("o", "first", "", [], [])];
    DrivenMore(moves, At(ObserveResult, CALLED), Advance(QUIET), recorded, At(EvaluateProgress, OBSERVED));
    EvaluatesIt();
    DrivenMore(moves + [Advance(QUIET)], At(EvaluateProgress, OBSERVED), Advance(QUIET), [],
        At(PlanOrReplan, EVALUATED));
    NoneStarted([]);
    NoneStarted(recorded);
  }

  /**
   * After an inspection that timed out the evaluator asks for a replan, the resolver leaves the choice
   * to the planner, and the planner's next revision has the inspection pending again: the step is
   * announced as started twice, in a run that the resolver and the planner drive as they are written.
   */
  lemma AStepStartsTwice()
    ensures MovesValid(RETRY) && DrivenRun(DATASET, TOOLS, RETRY)
    ensures Started(DATASET, RETRY) == ["inspect_catalog", "inspect_catalog"]
    ensures !SequenceKept(DATASET, RETRY) && !RecordKept(DATASET, RETRY) && !RewritesRecord(DATASET, RETRY)
  {
    hide Goes, Driven, StartedBy, Reach, DrivenRun, Started, RewritesRecord, MovesValid;
    var moves := FIRST + [PLAN_FIRST] + [Advance(QUIET)] + [RUN_TOOL];
    ReplanAskedFor(moves);
    PlansAgain();
    DrivenAgain();
    DrivenMore(moves + [Advance(QUIET)] + [Advance(QUIET)], At(PlanOrReplan, EVALUATED), PLAN_AGAIN,
               [PlanUpdated(PlanAt(2, StepRunning)), INSPECTION],
               At(GuardDecision, Planned(EVALUATED, AGAIN, SPENT, Some(0)).state));
    StartsSaid();
    RetryIsValid();
    assert Started(DATASET, RETRY)[0] == Started(DATASET, RETRY)[1];
    RecordKeptIff(DATASET, TOOLS, RETRY);
  }

  // ---- a stream rejected after a refused resume ----

  const PLANNER_RUN := SetupWith(false)

  const QUESTION := InputRequest("interrupt", "clarification", FromPlanner, "Which metric?", [], true)

  const ASKING := PlannerDecision(PlanAt(1, StepPending), Clarify, None, Some(QUESTION), None)

  const ASK := Advance(QUIET.(planned := Returned(ASKING)))

  const ASKED := LOADED.(
    status := AgentWaiting,
    plan := Some(ASKING.plan),
    plannerDecision := Some(ASKING),
    waitingRequest := Some(QUESTION),
    budget := LOADED.budget.(agentSteps := 1, modelCalls := 1),
    planRevisionCount := 1,
    nextRoute := None)

  const WAITING := ASKED.(nextRoute := Some(RequestInput))

  const PAUSING := FIRST + [ASK] + [Advance(QUIET)] + [Advance(QUIET)]

  const EMPTY_ANSWER := ResumeText("")

  const GO_ON := QUIET.(planned := Returned(Inspecting(1, StepPending, "first")))

  lemma Asks()
    ensures Goes(PLANNER_RUN, At(PlanOrReplan, LOADED), ASK, [PlanUpdated(ASKING.plan)], At(GuardDecision, ASKED))
  {
    hide Consume, FirstRunnable;
    var s := LOADED;
    var stepped := s.budget.(agentSteps := 1);
    ConsumeOne(s.budget, LIMITS, AgentSteps);
    ConsumeOne(stepped, LIMITS, ModelCalls);
    assert Decide(PLANNER_RUN, s, stepped, ASK.env) == Returned(Choice(ASKING, ASKED.budget));
    assert Plan(PLANNER_RUN, s, ASK.env) == Planned(s, ASKING, ASKED.budget, None);
  }

  lemma WaitsForAnswer()
    ensures Goes(PLANNER_RUN, At(GuardDecision, ASKED), Advance(QUIET), [], At(RequestInput, WAITING))
    ensures Enabled(At(RequestInput, WAITING), Advance(QUIET))
    ensures Next(PLANNER_RUN, At(RequestInput, WAITING), Advance(QUIET)) == Paused(WAITING)
  {
  }

  lemma RunMore(moves: seq<Move>, m: Move)
    requires Stream.IsRun(PLANNER_RUN, moves) && Enabled(Reach(PLANNER_RUN, moves), m) && EnvValid(m.env)
    ensures Stream.IsRun(PLANNER_RUN, moves + [m])
  {
    hide Reach, EnvValid;
    var longer := moves + [m];
    forall i | 0 <= i < |longer| ensures Enabled(Reach(PLANNER_RUN, longer[..i]), longer[i]) {
      if i < |moves| {
        assert longer[..i] == moves[..i];
      } else {
        assert longer[..i] == moves;
      }
    }
  }

  lemma AskingIsValid()
    ensures EnvValid(QUIET) && EnvValid(ASK.env)
  {
    OneStepIsAcceptable(ASKING.plan);
  }

  lemma FirstIsRun()
    ensures Stream.IsRun(PLANNER_RUN, FIRST)
  {
    AskingIsValid();
    StartReached(false);
    hide EnvValid, TurnOf, Next;
    var one := [Advance(QUIET)];
    assert [] + one == one && one + one == FIRST;
    RunMore([], Advance(QUIET));
    RunMore(one, Advance(QUIET));
  }

  lemma AskingIsRun()
    ensures Stream.IsRun(PLANNER_RUN, PAUSING) && Reach(PLANNER_RUN, PAUSING) == Paused(WAITING)
  {
    AskingIsValid();
    FirstIsRun();
    FirstReached(false);
    Asks();
    WaitsForAnswer();
    hide EnvValid, TurnOf, Next, Reach, Stream.IsRun;
    RunMore(FIRST, ASK);
    Extended(PLANNER_RUN, FIRST, ASK, [PlanUpdated(ASKING.plan)], At(GuardDecision, ASKED));
    RunMore(FIRST + [ASK], Advance(QUIET));
    Extended(PLANNER_RUN, FIRST + [ASK], Advance(QUIET), [], At(RequestInput, WAITING));
    RunMore(FIRST + [ASK] + [Advance(QUIET)], Advance(QUIET));
    Snoc(PLANNER_RUN, FIRST + [ASK] + [Advance(QUIET)], Advance(QUIET));
  }

  lemma GoesOnAfterRefusal()
    ensures ResumeMessage(EMPTY_ANSWER).Raised?
    ensures Blocked(WAITING, QUIET).None?
    ensures EnvValid(QUIET) && EnvValid(GO_ON)
    ensures PlanGoesAhead(PLANNER_RUN, Failed(WAITING, Coded(ResumeMessage(EMPTY_ANSWER).error), []).state, GO_ON)
  {
    OneStepIsAcceptable(PlanAt(1, StepPending));
    FirstOfOne(PlanAt(1, StepPending).steps);
    hide FirstRunnable, ResumeMessage;
    var s := Failed(WAITING, Coded(AGENT_INTERRUPT_STALE), []).state;
    assert multiset(StepCounters(s))[AgentSteps] == 1;
  }

  /**
   * The planner asks, the run pauses, and the answer that comes is empty: it is refused, the planner
   * goes on with its plan, and the log, which waits for an answer, rejects what is announced.
   */
  lemma EmptyAnswerIsRejected()
    ensures Stream.Proper(PLANNER_RUN, PAUSING) && Reach(PLANNER_RUN, PAUSING).Paused?
    ensures EnvValid(QUIET) && EnvValid(GO_ON) && ResumeMessage(EMPTY_ANSWER).Raised?
    ensures !Log.Accepted(Stream.RunTranslation(PLANNER_RUN,
            PAUSING + [Resume(QUIET, EMPTY_ANSWER), Advance(GO_ON)]).events)
  {
    AskingIsRun();
    assert Stream.Proper(PLANNER_RUN, PAUSING) by {
      hide Reach, Stream.IsRun;
      assert forall m | m in PAUSING :: m.Advance? && m.env.now == 0 && !m.env.cancelled;
    }
    GoesOnAfterRefusal();
    hide Stream.Proper, PlanGoesAhead, EnvValid, ResumeMessage, Stream.RunTranslation, Reach, Log.Accepted;
    Stream.RefusedResumeIsAcceptedIff(PLANNER_RUN, PAUSING, QUIET, EMPTY_ANSWER, GO_ON);
  }
}
