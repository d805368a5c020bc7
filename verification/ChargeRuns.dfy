/**
 * Two concrete dataset runs in which the charge for the resolver's model call is wrong: one reaches a
 * decision that is charged without a call, the other one that calls without a charge.
 */
module ChargeRuns {
  import opened Outcomes
  import opened AgentModels
  import opened AgentRouting
  import opened AgentGuard
  import opened AgentReducers
  import opened AgentEvaluator
  import opened AnalysisGraph
  import opened AnalysisPlanner
  import opened DatasetRuns
  import opened PlanEdits
  import opened PlanExecution
  import opened PlanGraph
  import Resolver = DatasetResolver

  const PINS := SourcePins("source", 1, "binding", 1)

  const AUTHORITY := DatasetAuthority(PINS, "schema", ExecuteMode)

  const LIMITS := RunBudget(99, 99, 99, 99, 99, 99, 99, 100)

  const NAMES := ["catalog.inspect", "semantic.inspect", "query.compile", "query.execute", "evidence.collect"]

  const SETUP := Setup(
    "run", AUTHORITY, ExecuteMode, None, LIMITS,
    map name | name in NAMES :: ToolSpec(true, {ExecuteMode}, (arguments: string) => true),
    true, (text: string) => text, (action: AgentAction) => action.actionId)

  const FAILURE := AgentError(INTERNAL_ERROR, false)

  /** The clock stands still; only the context loads, and every other call raises. */
  const QUIET := Env(
    0, false, Returned(NAMES), Raised(FAILURE), false, Raised(FAILURE), Raised(FAILURE), Raised(FAILURE),
    None, Raised(FAILURE), false, Raised(FAILURE), None, None)

  /** Every action is named after its step. */
  const TOOLS := Resolver.Tools(
    (text: string) => text, (arguments: Resolver.ToolArguments) => "", (runId: string) => "plan",
    (plan: AnalysisPlan, stepId: string, toolName: string, arguments: Resolver.ToolArguments) => stepId,
    (prompt: string) => "interrupt", [])

  // ---- one round: a plan, a tool, its observation, a verdict ----

  /** A running state with counters of at most `n`. */
  ghost predicate Standing(s: State, n: nat) {
    && s.status.AgentRunning? && s.error.None? && s.budget.deadlineAt == 100 && s.allowedTools == NAMES
    && forall c: Counter :: s.budget.Spent(c) <= n
  }

  lemma DecideSpends(s: State, budget: BudgetState, env: Env, c: Counter)
    requires Decide(SETUP, s, budget, env).Returned?
    ensures var b := Decide(SETUP, s, budget, env).value.budget;
            b.Spent(c) <= budget.Spent(c) + 2 && b.deadlineAt == budget.deadlineAt
  {
    hide SETUP;
    ConsumeOne(budget, SETUP.limits, ModelCalls);
    var one := budget.With(ModelCalls, budget.modelCalls + 1);
    ConsumeOne(one, SETUP.limits, ModelCalls);
    WithSets(budget, ModelCalls, c, budget.modelCalls + 1);
    WithSets(one, ModelCalls, c, one.modelCalls + 1);
    hide Consume;
  }

  lemma HasRoomFor(b: BudgetState, counters: seq<Counter>)
    requires |counters| <= 2 && forall c | c in counters :: b.Spent(c) <= 97
    ensures HasRoom(b, LIMITS, counters)
  {
    forall c | c in counters ensures b.Spent(c) + multiset(counters)[c] <= LIMITS.Limit(c) {
      assert multiset(counters)[c] <= |multiset(counters)| == |counters|;
    }
  }

  lemma DrawSpends(b: BudgetState, counters: seq<Counter>, c: Counter)
    requires |counters| <= 2 && Consume(b, LIMITS, counters).Returned?
    ensures Consume(b, LIMITS, counters).value.Spent(c) <= b.Spent(c) + 2
    ensures Consume(b, LIMITS, counters).value.deadlineAt == b.deadlineAt
  {
    ConsumeAdds(b, LIMITS, counters, c);
    assert multiset(counters)[c] <= |multiset(counters)| == |counters|;
  }

  /** The decision of a running state goes ahead, and is announced. */
  lemma Plans(s: State, n: nat, env: Env, d: PlannerDecision) returns (t: State)
    requires Standing(s, n) && n + 4 <= 97 && env.now == 0 && !env.cancelled
    requires DecisionOf(SETUP, s, env) == Some(d)
    requires d.kind.Clarify? && d.clarification.Some? ==> FingerprintOf(SETUP, d.clarification.value) !in s.turns
    requires d.kind.Act? ==> d.nextAction.Some? && FirstRunnable(d.plan.steps).Some?
    ensures forall c: Counter :: t.budget.Spent(c) <= n + 4
    ensures t.budget.deadlineAt == 100
    ensures t == Planned(s, d, t.budget, StartedStep(d)).state
    ensures Next(SETUP, At(PlanOrReplan, s), Advance(env)) == At(GuardDecision, t)
  {
    assert forall c: Counter :: s.budget.Spent(c) <= n;
    assert s.budget.Spent(ModelCalls) <= n;
    HasRoomFor(s.budget, StepCounters(s));
    PlanGoesAheadIff(SETUP, s, env);
    assert PlanGoesAhead(SETUP, s, env);
    t := Plan(SETUP, s, env).state;
    PlanSpends(s, env, n);
    hide Plan, PlanGoesAhead, Standing, Planned, DecisionOf;
    PlanLands(t);
  }

  lemma PlanLands(t: State)
    ensures Landed(PlanOrReplan, t) == At(GuardDecision, t)
  {
  }

  lemma PlanSpends(s: State, env: Env, n: nat)
    requires Standing(s, n) && PlanGoesAhead(SETUP, s, env)
    ensures forall c: Counter :: Plan(SETUP, s, env).state.budget.Spent(c) <= n + 4
    ensures Plan(SETUP, s, env).state.budget.deadlineAt == 100
  {
    ConsumeIffRoom(s.budget, LIMITS, StepCounters(s));
    var draw := Consume(s.budget, LIMITS, StepCounters(s)).value;
    ConsumeAdds(s.budget, LIMITS, StepCounters(s), ModelCalls);
    PlanGoesAheadIff(SETUP, s, env);
    DecideIff(SETUP, s, draw, env);
    var b := Decide(SETUP, s, draw, env).value.budget;
    DrawSpends(s.budget, StepCounters(s), AgentSteps);
    DecideSpends(s, draw, env, AgentSteps);
    forall c: Counter ensures b.Spent(c) <= n + 4 {
      DrawSpends(s.budget, StepCounters(s), c);
      DecideSpends(s, draw, env, c);
    }
    hide Consume, Decide, HasRoom, DecisionOf, ModelCallsFor, FingerprintOf, FirstRunnable;
    assert Plan(SETUP, s, env).state.budget == b;
  }

  /** An act of a listed tool passes the guard. */
  lemma Guards(s: State, d: PlannerDecision)
    requires s.status.AgentRunning? && s.error.None? && s.budget.deadlineAt == 100 && s.allowedTools == NAMES
    requires s.plannerDecision == Some(d) && d.kind.Act? && d.nextAction.Some? && d.nextAction.value.toolName in NAMES
    ensures Next(SETUP, At(GuardDecision, s), Advance(QUIET)) == At(ExecuteTool, s.(nextRoute := Some(ExecuteTool)))
  {
    assert GuardPlannerDecision(d, ExecuteMode, s.allowedTools, SETUP.specs) == Returned(ExecuteTool);
    assert Guard(SETUP, s, QUIET) == Finished(s.(nextRoute := Some(ExecuteTool)), []);
  }

  lemma ToolCounters(toolName: string)
    ensures |CountersOf(toolName)| <= 2
  {
  }

  /** The tool is called and answers for the action that was decided. */
  lemma Calls(s: State, n: nat, env: Env, action: AgentAction) returns (t: State)
    requires s.status.AgentRunning? && s.error.None? && s.budget.deadlineAt == 100 && n <= 97
    requires forall c: Counter :: s.budget.Spent(c) <= n
    requires s.pendingAction == Some(action) && env.now == 0 && !env.cancelled && env.observed.Returned?
    requires env.observed.value.actionId == action.actionId && env.observed.value.toolName == action.toolName
    ensures forall c: Counter :: t.budget.Spent(c) <= n + 2
    ensures t.budget.deadlineAt == 100
    ensures t == s.(budget := t.budget, pendingObservation := Some(env.observed.value),
            nextRoute := Some(ObserveResult))
    ensures Next(SETUP, At(ExecuteTool, s), Advance(env)) == At(ObserveResult, t)
  {
    ToolCounters(action.toolName);
    HasRoomFor(s.budget, CountersOf(action.toolName));
    ConsumeIffRoom(s.budget, LIMITS, CountersOf(action.toolName));
    DrawSpends(s.budget, CountersOf(action.toolName), AgentSteps);
    forall c: Counter ensures Consume(s.budget, LIMITS, CountersOf(action.toolName)).value.Spent(c) <= n + 2 {
      DrawSpends(s.budget, CountersOf(action.toolName), c);
    }
    hide Consume, CountersOf, HasRoom;
    t := Execute(SETUP, s, env).state;
    assert Landed(ExecuteTool, t) == At(ObserveResult, t);
  }

  /** The observation is recorded and settles its step. */
  lemma Observes(s: State, o: Observation, plan: AnalysisPlan, artifacts: seq<ArtifactRef>, evidence: seq<EvidenceRef>)
    returns (t: State)
    requires s.status.AgentRunning? && s.error.None? && s.budget.deadlineAt == 100
    requires s.pendingObservation == Some(o) && s.plan.Some? && o.actionId in s.actionSteps
    requires plan == s.plan.value.(
      steps := SetStatus(s.plan.value.steps, s.actionSteps[o.actionId],
          if o.succeeded then StepCompleted else StepBlocked))
    requires MergeAll(s.observations, ObservationKey, [o]) == Returned(s.observations + [o])
    requires MergeAll(s.artifacts, ArtifactKey, o.artifactRefs) == Returned(artifacts)
    requires MergeAll(s.evidence, EvidenceKey, o.evidenceRefs) == Returned(evidence)
    ensures t == s.(plan := Some(plan), observations := s.observations + [o], artifacts := artifacts,
            evidence := evidence,
                    pendingObservation := None, nextRoute := Some(EvaluateProgress))
    ensures Next(SETUP, At(ObserveResult, s), Advance(QUIET)) == At(EvaluateProgress, t)
  {
    hide MergeAll, SetStatus;
    t := Observe(s, QUIET).state;
    assert Landed(ObserveResult, t) == At(EvaluateProgress, t);
  }

  /** A verdict to go on, or to plan anew. */
  lemma Evaluates(s: State) returns (t: State)
    requires s.status.AgentRunning? && s.error.None? && s.budget.deadlineAt == 100 && s.plan.Some?
    requires var d := ProgressDecision(s.plan.value, AUTHORITY, "run", s.observations, s.artifacts, s.evidence);
             d.Some? && (d.value.kind.Continue? || d.value.kind.Replan?)
    ensures var d := ProgressDecision(s.plan.value, AUTHORITY, "run", s.observations, s.artifacts, s.evidence).value;
            && t == Evaluated(s, d, s.budget).state
            && Next(SETUP, At(EvaluateProgress, s), Advance(QUIET)) == At(PlanOrReplan, t)
  {
    hide ProgressDecision;
    var d := ProgressDecision(s.plan.value, AUTHORITY, "run", s.observations, s.artifacts, s.evidence).value;
    assert Evaluate(SETUP, s, QUIET) == Evaluated(s, d, s.budget);
    t := Evaluated(s, d, s.budget).state;
    EvaluatedLands(s, d);
  }

  // ---- moves ----

  /** Valid answers, given as resolver and planner are written, by tools as they are. */
  ghost predicate Possible(moves: seq<Move>) {
    MovesValid(moves) && DrivenRun(SETUP, TOOLS, moves) && InspectionsLeaveOne(moves)
  }

  lemma More(moves: seq<Move>, m: Move)
    requires Possible(moves) && EnvValid(m.env)
             && (m.env.observed.Returned? ==> LeavesOneArtifact(m.env.observed.value))
    requires AtPlanning(Reach(SETUP, moves)) ==> Driven(SETUP, TOOLS, Reach(SETUP, moves).state, m.env)
    ensures Possible(moves + [m]) && Reach(SETUP, moves + [m]) == Next(SETUP, Reach(SETUP, moves), m)
  {
    hide Reach, Next, Driven, EnvValid, LeavesOneArtifact;
    assert (moves + [m])[..|moves|] == moves;
    Snoc(SETUP, moves, m);
  }

  lemma QuietIsValid()
    ensures EnvValid(QUIET) && !QUIET.observed.Returned?
  {
  }

  /** The outcome of a step, written into the plan that was decided. */
  function Settled(plan: AnalysisPlan, k: nat, succeeded: bool): (r: AnalysisPlan)
    requires k < |plan.steps|
    ensures r == plan.(steps := r.steps)
  {
    plan.(steps := plan.steps[k := plan.steps[k].(status := if succeeded then StepCompleted else StepBlocked)])
  }

  lemma SettledTwice(d: PlannerDecision, k: nat, succeeded: bool)
    requires k < |d.plan.steps| && Distinct(StepIds(d.plan.steps))
    ensures var id := d.plan.steps[k].stepId;
            var running := SetStatus(d.plan.steps, id, StepRunning);
            SetStatus(running, id, if succeeded then StepCompleted else StepBlocked)
                == Settled(d.plan, k, succeeded).steps
  {
    var steps, id := d.plan.steps, d.plan.steps[k].stepId;
    forall i | 0 <= i < |steps| && i != k ensures steps[i].stepId != id {
      assert StepIds(steps)[i] != StepIds(steps)[k];
    }
  }

  /** The moves lead from one configuration to the next. */
  ghost predicate Leads(moves: seq<Move>, path: seq<Config>) {
    && |path| == |moves| + 1
    && (forall i | 0 <= i < |moves| :: Next(SETUP, path[i], moves[i]) == path[i + 1])
    && (forall i | 0 <= i < |moves| :: Fair(path[i], moves[i]))
  }

  ghost predicate Fair(c: Config, m: Move) {
    && EnvValid(m.env) && (m.env.observed.Returned? ==> LeavesOneArtifact(m.env.observed.value))
    && (AtPlanning(c) ==> Driven(SETUP, TOOLS, c.state, m.env))
  }

  lemma {:induction false} MoreMoves(moves: seq<Move>, more: seq<Move>, path: seq<Config>)
    requires Possible(moves) && Leads(more, path) && Reach(SETUP, moves) == path[0]
    ensures Possible(moves + more) && Reach(SETUP, moves + more) == path[|more|]
    decreases |more|
  {
    hide Reach, Next, Fair, Possible;
    if more == [] {
      assert moves + more == moves;
    } else {
      var k := |more| - 1;
      MoreMoves(moves, more[..k], path[..k + 1]);
      assert moves + more == moves + more[..k] + [more[k]];
      assert Fair(path[k], more[k]);
      MoreFair(moves + more[..k], more[k]);
    }
  }

  lemma MoreFair(moves: seq<Move>, m: Move)
    requires Possible(moves) && Fair(Reach(SETUP, moves), m)
    ensures Possible(moves + [m]) && Reach(SETUP, moves + [m]) == Next(SETUP, Reach(SETUP, moves), m)
  {
    More(moves, m);
  }

  lemma QuietIsFair(c: Config)
    requires !AtPlanning(c)
    ensures Fair(c, Advance(QUIET))
  {
  }

  /** An act is planned, guarded and called. */
  lemma Acts(s: State, n: nat, env: Env, d: PlannerDecision, k: nat, o: Observation) returns (s1: State, t: State)
    requires Standing(s, n) && n + 6 <= 97 && env.now == 0 && !env.cancelled
    requires DecisionOf(SETUP, s, env) == Some(d) && d.kind.Act? && d.nextAction.Some?
    requires FirstRunnable(d.plan.steps) == Some(k) && d.nextAction.value.toolName in NAMES
    requires o.actionId == d.nextAction.value.actionId && o.toolName == d.nextAction.value.toolName
    ensures var call := QUIET.(observed := Returned(o));
            && Next(SETUP, At(PlanOrReplan, s), Advance(env)) == At(GuardDecision, s1)
            && Next(SETUP, At(GuardDecision, s1), Advance(QUIET))
               == At(ExecuteTool, s1.(nextRoute := Some(ExecuteTool)))
            && Next(SETUP, At(ExecuteTool, s1.(nextRoute := Some(ExecuteTool))), Advance(call)) == At(ObserveResult, t)
    ensures t.plan == Some(d.plan.(steps := SetStatus(d.plan.steps, d.plan.steps[k].stepId, StepRunning)))
    ensures o.actionId in t.actionSteps && t.actionSteps[o.actionId] == d.plan.steps[k].stepId
    ensures t.pendingObservation == Some(o) && Standing(t, n + 6)
    ensures t.observations == s.observations && t.artifacts == s.artifacts && t.evidence == s.evidence
            && t.turns == s.turns
  {
    var call := QUIET.(observed := Returned(o));
    s1 := Plans(s, n, env, d);
    assert s1.plannerDecision == Some(d.(plan := s1.plan.value));
    hide Next, FirstRunnable, DecisionOf, SetStatus;
    Guards(s1, d.(plan := s1.plan.value));
    t := Calls(s1.(nextRoute := Some(ExecuteTool)), n + 4, call, d.nextAction.value);
  }

  /** What was called is observed and evaluated. */
  lemma Settles(
      s: State, n: nat, o: Observation, plan: AnalysisPlan, artifacts: seq<ArtifactRef>, evidence: seq<EvidenceRef>)
    returns (s1: State, t: State)
    requires Standing(s, n) && s.pendingObservation == Some(o) && s.plan.Some? && o.actionId in s.actionSteps
    requires plan == s.plan.value.(
      steps := SetStatus(s.plan.value.steps, s.actionSteps[o.actionId],
          if o.succeeded then StepCompleted else StepBlocked))
    requires MergeAll(s.observations, ObservationKey, [o]) == Returned(s.observations + [o])
    requires MergeAll(s.artifacts, ArtifactKey, o.artifactRefs) == Returned(artifacts)
    requires MergeAll(s.evidence, EvidenceKey, o.evidenceRefs) == Returned(evidence)
    requires var v := ProgressDecision(plan, AUTHORITY, "run", s.observations + [o], artifacts, evidence);
             v.Some? && (if o.succeeded then v.value.kind.Continue? else v.value.kind.Replan?)
    ensures Next(SETUP, At(ObserveResult, s), Advance(QUIET)) == At(EvaluateProgress, s1)
    ensures Next(SETUP, At(EvaluateProgress, s1), Advance(QUIET)) == At(PlanOrReplan, t)
    ensures Standing(t, n) && t.replanRequested == !o.succeeded
    ensures t.plan == Some(plan) && t.observations == s.observations + [o] && t.artifacts == artifacts
            && t.evidence == evidence
    ensures t.turns == s.turns
  {
    hide MergeAll, ProgressDecision, SetStatus, Next;
    s1 := Observes(s, o, plan, artifacts, evidence);
    t := Evaluates(s1);
  }

  /** Five moves: an act is planned, guarded, called, observed and evaluated. */
  lemma Round(
    moves: seq<Move>, s: State, n: nat, env: Env, d: PlannerDecision, k: nat, o: Observation,
    artifacts: seq<ArtifactRef>, evidence: seq<EvidenceRef>) returns (longer: seq<Move>, t: State)
    requires Possible(moves) && Reach(SETUP, moves) == At(PlanOrReplan, s) && Standing(s, n) && n + 6 <= 97
    requires EnvValid(env) && !env.observed.Returned? && env.now == 0 && !env.cancelled && Driven(SETUP, TOOLS, s, env)
    requires DecisionOf(SETUP, s, env) == Some(d) && d.kind.Act? && d.nextAction.Some?
             && Distinct(StepIds(d.plan.steps))
    requires FirstRunnable(d.plan.steps) == Some(k) && d.nextAction.value.toolName in NAMES
    requires o.actionId == d.nextAction.value.actionId && o.toolName == d.nextAction.value.toolName
    requires ValidObservation(o) && LeavesOneArtifact(o)
    requires MergeAll(s.observations, ObservationKey, [o]) == Returned(s.observations + [o])
    requires MergeAll(s.artifacts, ArtifactKey, o.artifactRefs) == Returned(artifacts)
    requires MergeAll(s.evidence, EvidenceKey, o.evidenceRefs) == Returned(evidence)
    requires var v := ProgressDecision(Settled(d.plan, k, o.succeeded), AUTHORITY, "run", s.observations + [o],
             artifacts, evidence);
             v.Some? && (if o.succeeded then v.value.kind.Continue? else v.value.kind.Replan?)
    ensures Possible(longer) && Reach(SETUP, longer) == At(PlanOrReplan, t) && Standing(t, n + 6)
    ensures t.plan == Some(Settled(d.plan, k, o.succeeded)) && t.observations == s.observations + [o]
    ensures t.artifacts == artifacts && t.evidence == evidence && t.turns == s.turns
            && t.replanRequested == !o.succeeded
  {
    var call := QUIET.(observed := Returned(o));
    assert Fair(At(PlanOrReplan, s), Advance(env));
    assert EnvValid(call);
    hide Next, Reach, Possible, MergeAll, ProgressDecision, FirstRunnable, Driven, DecisionOf, SetStatus, Standing,
         Distinct;
    hide EnvValid, ValidObservation, LeavesOneArtifact, Fair, Settled;
    var s1, s3 := Acts(s, n, env, d, k, o);
    SettledTwice(d, k, o.succeeded);
    assert Settled(d.plan, k, o.succeeded) == s3.plan.value.(steps := Settled(d.plan, k, o.succeeded).steps);
    var s4;
    s4, t := Settles(s3, n + 6, o, Settled(d.plan, k, o.succeeded), artifacts, evidence);
    longer := FiveMoves(moves, s, env, s1, call, s3, s4, t);
  }

  lemma FiveMoves(moves: seq<Move>, s: State, env: Env, s1: State, call: Env, s3: State, s4: State, t: State)
    returns (longer: seq<Move>)
    requires Possible(moves) && Reach(SETUP, moves) == At(PlanOrReplan, s) && Fair(At(PlanOrReplan, s), Advance(env))
    requires Next(SETUP, At(PlanOrReplan, s), Advance(env)) == At(GuardDecision, s1)
    requires Next(SETUP, At(GuardDecision, s1), Advance(QUIET)) == At(ExecuteTool, s1.(nextRoute := Some(ExecuteTool)))
    requires EnvValid(call) && (call.observed.Returned? ==> LeavesOneArtifact(call.observed.value))
    requires Next(SETUP, At(ExecuteTool, s1.(nextRoute := Some(ExecuteTool))), Advance(call)) == At(ObserveResult, s3)
    requires Next(SETUP, At(ObserveResult, s3), Advance(QUIET)) == At(EvaluateProgress, s4)
    requires Next(SETUP, At(EvaluateProgress, s4), Advance(QUIET)) == At(PlanOrReplan, t)
    ensures Possible(longer) && Reach(SETUP, longer) == At(PlanOrReplan, t)
  {
    hide Next, Reach, Possible;
    var c2 := At(ExecuteTool, s1.(nextRoute := Some(ExecuteTool)));
    QuietIsFair(At(GuardDecision, s1));
    QuietIsFair(At(ObserveResult, s3));
    QuietIsFair(At(EvaluateProgress, s4));
    assert Fair(c2, Advance(call));
    hide Fair, EnvValid, LeavesOneArtifact;
    var five := [Advance(env), Advance(QUIET), Advance(call), Advance(QUIET), Advance(QUIET)];
    longer := moves + five;
    MoreMoves(moves, five, [At(PlanOrReplan, s), At(GuardDecision, s1), c2, At(ObserveResult, s3),
                            At(EvaluateProgress, s4), At(PlanOrReplan, t)]);
  }

  // ---- rounds that append a step ----

  /** A valid plan with nothing left to start. */
  ghost predicate Idle(s: State) {
    s.plan.Some? && ValidPlan(s.plan.value) && NothingPending(s.plan.value.steps)
  }

  function Appending(plan: AnalysisPlan, toolName: string, arguments: Resolver.ToolArguments): PlannerDecision {
    Resolver.ActingOn(TOOLS, plan, None, toolName, arguments)
  }

  lemma AppendingActs(plan: AnalysisPlan, toolName: string, arguments: Resolver.ToolArguments)
    requires ValidPlan(plan) && NothingPending(plan.steps)
    ensures FirstRunnable(plan.steps).None?
    ensures var d := Appending(plan, toolName, arguments);
            && DecisionOk(d) && d.kind.Act? && d.nextAction.value.toolName == toolName
            && d.plan == Resolver.Appended(plan, toolName) && FirstRunnable(d.plan.steps) == Some(|plan.steps|)
            && Distinct(StepIds(d.plan.steps))
  {
    assert FirstRunnable(plan.steps).None?;
    Resolver.ActingOnEdits(TOOLS, plan, toolName, arguments);
    hide Edits, Resolver.CanonicalToolStep, WellFormed, Resolver.ToolStep;
    EditsKeepAcceptable(plan.steps, Appending(plan, toolName, arguments).plan.steps);
    AppendedIsActed(plan, toolName, arguments);
  }

  lemma AppendedIsActed(plan: AnalysisPlan, toolName: string, arguments: Resolver.ToolArguments)
    ensures Appending(plan, toolName, arguments).plan == Resolver.Appended(plan, toolName)
  {
  }

  lemma SettledIsIdle(plan: AnalysisPlan, k: nat, succeeded: bool)
    requires ValidPlan(plan) && k < |plan.steps|
    requires forall i | 0 <= i < |plan.steps| && i != k :: !plan.steps[i].status.StepPending?
    ensures ValidPlan(Settled(plan, k, succeeded)) && NothingPending(Settled(plan, k, succeeded).steps)
  {
    StatusesDoNotMatter(plan, Settled(plan, k, succeeded));
    forall step | step in Settled(plan, k, succeeded).steps ensures !step.status.StepPending? {
      var i :| 0 <= i < |plan.steps| && Settled(plan, k, succeeded).steps[i] == step;
    }
  }

  // ---- verdicts ----

  lemma FailureReplans(
      plan: AnalysisPlan, observations: seq<Observation>, artifacts: seq<ArtifactRef>, evidence: seq<EvidenceRef>)
    requires observations != [] && observations[|observations| - 1].error.Some?
    requires observations[|observations| - 1].error.value.retryable
    ensures var v := ProgressDecision(plan, AUTHORITY, "run", observations, artifacts, evidence);
            v.Some? && v.value.kind.Replan?
  {
    hide CompletedIds, Missing, FirstOccurrences, ClaimKeys;
  }

  /** After a good result, with evidence missing or a step unfinished, the run goes on. */
  lemma SuccessContinues(
      plan: AnalysisPlan, observations: seq<Observation>, artifacts: seq<ArtifactRef>, evidence: seq<EvidenceRef>)
    requires observations != [] && Distinct(StepIds(plan.steps))
    requires var o := observations[|observations| - 1];
             o.error.None? && o.safePreview == [] && forall a | a in o.artifactRefs :: a.rowCount.None?
    requires AllFits(AUTHORITY, "run", artifacts, evidence)
    requires evidence == [] || exists s | s in plan.steps :: s.status.StepBlocked?
    ensures var v := ProgressDecision(plan, AUTHORITY, "run", observations, artifacts, evidence);
            v.Some? && v.value.kind.Continue?
  {
    NoModelCallNeeded(plan, AUTHORITY, "run", observations, artifacts, evidence);
    FinishIff(plan, AUTHORITY, "run", observations, artifacts, evidence);
    hide CompletedIds, Missing, FirstOccurrences, ClaimKeys, EvidenceFits, ArtifactFits, StepsAllDone, Distinct;
  }

  // ---- records ----

  lemma OneMerged<T>(items: seq<T>, id: T -> string, item: T)
    requires !Contains(items, id, id(item))
    ensures MergeAll(items, id, [item]) == Returned(items + [item])
  {
    assert [item][..0] == [];
  }

  lemma KnownMerged<T>(items: seq<T>, id: T -> string, item: T)
    requires item in items
    ensures MergeAll(items, id, [item]) == Returned(items)
  {
    assert [item][..0] == [];
    var i :| 0 <= i < |items| && items[i] == item;
    assert id(items[i]) == id(item);
  }

  // ---- decisions of the resolver ----

  function ViewAt(s: State, question: Resolver.Question): Resolver.View
    requires s.plan.Some?
  {
    Resolver.ViewOf(s, ExecuteMode, AllowedSpecs(SETUP, s).Keys, question)
  }

  /** The resolver is asked, with the charge it announces. */
  function Asking(
    s: State, cached: Option<Resolver.QueryPlan>, question: Resolver.Question,
    planned: Outcome<Resolver.QueryPlan, AgentError>): Env
    requires s.plan.Some?
  {
    QUIET.(resolved := Resolver.Resolve(TOOLS, cached, ViewAt(s, question), planned, None).decision,
           resolverCallsModel := Resolver.RequiresModelCall(TOOLS, cached, ViewAt(s, question)))
  }

  lemma AskingIsFair(
    s: State, cached: Option<Resolver.QueryPlan>, question: Resolver.Question,
    planned: Outcome<Resolver.QueryPlan, AgentError>)
    requires Idle(s) && s.observations != []
    ensures var env := Asking(s, cached, question, planned);
            && EnvValid(env) && Driven(SETUP, TOOLS, s, env) && !env.observed.Returned? && env.now == 0
               && !env.cancelled
            && (env.resolved.Returned? && env.resolved.value.Some? ==> DecisionOf(SETUP, s, env) == env.resolved.value)
  {
    hide Resolver.Resolve, Resolver.RequiresModelCall, ValidPlan, AcceptablePlan, WellFormed, Edits;
    var env := Asking(s, cached, question, planned);
    ValidIsDistinct(s.plan.value);
    Resolver.ResolveIsSound(TOOLS, cached, ViewAt(s, question), planned, None);
    assert ResolverAsked(SETUP, s) && !InitialAsked(SETUP, s);
  }

  lemma ValidIsDistinct(plan: AnalysisPlan)
    requires ValidPlan(plan)
    ensures Distinct(StepIds(plan.steps))
  {
  }

  /** Another result of the record fits the run's authority. */
  ghost predicate Recorded(s: State, o: Observation, artifacts: seq<ArtifactRef>, evidence: seq<EvidenceRef>) {
    && ValidObservation(o) && LeavesOneArtifact(o)
    && !Contains(s.observations, ObservationKey, o.observationId)
    && MergeAll(s.artifacts, ArtifactKey, o.artifactRefs) == Returned(artifacts)
    && MergeAll(s.evidence, EvidenceKey, o.evidenceRefs) == Returned(evidence)
    && (if o.succeeded then
          && o.safePreview == [] && (forall a | a in o.artifactRefs :: a.rowCount.None?)
          && AllFits(AUTHORITY, "run", artifacts, evidence)
        else o.error.Some? && o.error.value.retryable)
  }

  predicate SomeBlocked(s: State) {
    s.plan.Some? && exists step | step in s.plan.value.steps :: step.status.StepBlocked?
  }

  /** A round for a step that the decision appends. */
  lemma AppendRound(
    moves: seq<Move>, s: State, n: nat, env: Env, toolName: string, arguments: Resolver.ToolArguments, o: Observation,
    artifacts: seq<ArtifactRef>, evidence: seq<EvidenceRef>) returns (longer: seq<Move>, t: State)
    requires Possible(moves) && Reach(SETUP, moves) == At(PlanOrReplan, s) && Standing(s, n) && n + 6 <= 97 && Idle(s)
    requires EnvValid(env) && !env.observed.Returned? && env.now == 0 && !env.cancelled && Driven(SETUP, TOOLS, s, env)
    requires var d := Appending(s.plan.value, toolName, arguments);
             && DecisionOf(SETUP, s, env) == Some(d) && d.nextAction.Some?
             && o.actionId == d.nextAction.value.actionId && o.toolName == toolName && toolName in NAMES
    requires Recorded(s, o, artifacts, evidence) && (evidence == [] || !o.succeeded || SomeBlocked(s))
    ensures Possible(longer) && Reach(SETUP, longer) == At(PlanOrReplan, t) && Standing(t, n + 6) && Idle(t)
    ensures t.observations == s.observations + [o] && t.artifacts == artifacts && t.evidence == evidence
    ensures t.turns == s.turns && t.replanRequested == !o.succeeded
    ensures SomeBlocked(t) <==> SomeBlocked(s) || !o.succeeded
  {
    AppendSettles(s, toolName, arguments, o, artifacts, evidence);
    var d, k := Appending(s.plan.value, toolName, arguments), |s.plan.value.steps|;
    hide SomeBlocked, Appending, Standing, EnvValid, Driven, Possible, Reach, DecisionOf, MergeAll, ProgressDecision,
         ValidPlan;
    hide FirstRunnable, ValidObservation, LeavesOneArtifact, Settled, Distinct, NothingPending, Recorded;
    longer, t := Round(moves, s, n, env, d, k, o, artifacts, evidence);
  }

  // What the round needs of the appended step, its outcome and the verdict.
  lemma AppendSettles(
    s: State, toolName: string, arguments: Resolver.ToolArguments, o: Observation,
    artifacts: seq<ArtifactRef>, evidence: seq<EvidenceRef>)
    requires Idle(s) && Recorded(s, o, artifacts, evidence) && (evidence == [] || !o.succeeded || SomeBlocked(s))
    ensures var d, k := Appending(s.plan.value, toolName, arguments), |s.plan.value.steps|;
            && d.kind.Act? && d.nextAction.Some? && d.nextAction.value.toolName == toolName && k < |d.plan.steps|
            && Distinct(StepIds(d.plan.steps)) && FirstRunnable(d.plan.steps) == Some(k)
            && ValidObservation(o) && LeavesOneArtifact(o)
            && MergeAll(s.observations, ObservationKey, [o]) == Returned(s.observations + [o])
            && MergeAll(s.artifacts, ArtifactKey, o.artifactRefs) == Returned(artifacts)
            && MergeAll(s.evidence, EvidenceKey, o.evidenceRefs) == Returned(evidence)
            && var after := Settled(d.plan, k, o.succeeded);
            && ValidPlan(after) && NothingPending(after.steps)
            && ((exists step | step in after.steps :: step.status.StepBlocked?) <==> SomeBlocked(s) || !o.succeeded)
            && var v := ProgressDecision(after, AUTHORITY, "run", s.observations + [o], artifacts, evidence);
            v.Some? && (if o.succeeded then v.value.kind.Continue? else v.value.kind.Replan?)
  {
    var plan := s.plan.value;
    var d, k := Appending(plan, toolName, arguments), |plan.steps|;
    AppendingActs(plan, toolName, arguments);
    assert d.plan.steps == plan.steps + [d.plan.steps[k]];
    var after := Settled(d.plan, k, o.succeeded);
    SettledIsIdle(d.plan, k, o.succeeded);
    OneMerged(s.observations, ObservationKey, o);
    assert after.steps == plan.steps + [after.steps[k]];
    VerdictAfter(s, after, o, artifacts, evidence);
    BlockedAfter(s, plan, after, k);
    hide SomeBlocked, Appending, MergeAll, ProgressDecision, ValidPlan, FirstRunnable, Distinct, NothingPending,
         Contains, AllFits;
  }

  lemma BlockedAfter(s: State, plan: AnalysisPlan, after: AnalysisPlan, k: nat)
    requires s.plan == Some(plan) && k == |plan.steps| && |after.steps| == k + 1
             && after.steps == plan.steps + [after.steps[k]]
    ensures (exists step | step in after.steps :: step.status.StepBlocked?) <==>
               SomeBlocked(s) || after.steps[k].status.StepBlocked?
  {
    if SomeBlocked(s) {
      var step :| step in plan.steps && step.status.StepBlocked?;
      assert step in after.steps;
    } else if after.steps[k].status.StepBlocked? {
      assert after.steps[k] in after.steps;
    }
  }

  lemma VerdictAfter(
      s: State, after: AnalysisPlan, o: Observation, artifacts: seq<ArtifactRef>, evidence: seq<EvidenceRef>)
    requires Idle(s) && ValidPlan(after) && |after.steps| == |s.plan.value.steps| + 1
    requires after.steps == s.plan.value.steps + [after.steps[|s.plan.value.steps|]]
    requires Recorded(s, o, artifacts, evidence) && (evidence == [] || !o.succeeded || SomeBlocked(s))
    ensures var v := ProgressDecision(after, AUTHORITY, "run", s.observations + [o], artifacts, evidence);
            v.Some? && (if o.succeeded then v.value.kind.Continue? else v.value.kind.Replan?)
  {
    ValidIsDistinct(after);
    hide ValidPlan, MergeAll, ProgressDecision, AllFits, NothingPending, Distinct;
    if o.succeeded {
      if SomeBlocked(s) {
        var step :| step in s.plan.value.steps && step.status.StepBlocked?;
        assert step in after.steps;
      }
      SuccessContinues(after, s.observations + [o], artifacts, evidence);
    } else {
      FailureReplans(after, s.observations + [o], artifacts, evidence);
    }
  }

  // ---- the catalog is inspected first ----

  const STARTED := INITIAL.(
    status := AgentRunning, budget := NO_BUDGET.(startedAt := 0, deadlineAt := 100), nextRoute := Some(LoadContext))

  const LOADED := STARTED.(allowedTools := NAMES, nextRoute := Some(PlanOrReplan))

  lemma Loads()
    ensures Next(SETUP, At(InitializeRun, INITIAL), Advance(QUIET)) == At(LoadContext, STARTED)
    ensures Next(SETUP, At(LoadContext, STARTED), Advance(QUIET)) == At(PlanOrReplan, LOADED)
    ensures Standing(LOADED, 0)
  {
  }

  function Artifact(id: string, kind: ArtifactKind): ArtifactRef {
    ArtifactRef(id, "run", kind, id, None, None)
  }

  const CATALOG := Artifact("catalog", OtherArtifact("catalog"))

  lemma StartRound() returns (moves: seq<Move>)
    ensures Possible(moves) && Reach(SETUP, moves) == At(PlanOrReplan, LOADED)
  {
    Loads();
    QuietIsFair(At(InitializeRun, INITIAL));
    QuietIsFair(At(LoadContext, STARTED));
    assert Possible([]) && Reach(SETUP, []) == At(InitializeRun, INITIAL);
    hide Fair, Next, Possible, Reach;
    moves := [] + [Advance(QUIET), Advance(QUIET)];
    MoreMoves([], [Advance(QUIET), Advance(QUIET)],
              [At(InitializeRun, INITIAL), At(LoadContext, STARTED), At(PlanOrReplan, LOADED)]);
  }

  function Catalogued(actionId: string): Observation {
    Observation("o1", actionId, "catalog.inspect", true, "", [CATALOG], [], [], None)
  }

  lemma MayInspectAll(s: State)
    requires s.allowedTools == NAMES
    ensures forall name | name in NAMES :: name in AllowedSpecs(SETUP, s).Keys
  {
  }

  function FirstAct(): PlannerDecision {
    Resolver.FirstDecision(TOOLS, "run", AllowedSpecs(SETUP, LOADED).Keys)
  }

  lemma FirstActIsFair()
    ensures var d, env := FirstAct(), QUIET.(initialDecision := Returned(Some(FirstAct())));
            && EnvValid(env) && DecisionOf(SETUP, LOADED, env) == Some(d) && Driven(SETUP, TOOLS, LOADED, env)
            && d.kind.Act? && d.nextAction.Some? && d.nextAction.value.toolName == "catalog.inspect"
            && |d.plan.steps| == 1 && ValidPlan(d.plan) && FirstRunnable(d.plan.steps) == Some(0)
  {
    MayInspectAll(LOADED);
    Resolver.FirstDecisionIsSound(TOOLS, "run", AllowedSpecs(SETUP, LOADED).Keys);
    hide Resolver.FirstDecision, AcceptablePlan, WellFormed, InOrder;
  }

  lemma CatalogSettles(plan: AnalysisPlan, actionId: string)
    requires |plan.steps| == 1 && ValidPlan(plan)
    ensures var after, o := Settled(plan, 0, true), Catalogued(actionId);
            && ValidPlan(after) && NothingPending(after.steps)
               && (forall s | s in after.steps :: !s.status.StepBlocked?)
            && ValidObservation(o) && LeavesOneArtifact(o)
            && MergeAll([], ObservationKey, [o]) == Returned([o])
            && MergeAll([], ArtifactKey, o.artifactRefs) == Returned([CATALOG])
            && MergeAll<EvidenceRef>([], EvidenceKey, o.evidenceRefs) == Returned([])
            && ProgressDecision(after, AUTHORITY, "run", [o], [CATALOG], []).Some?
            && ProgressDecision(after, AUTHORITY, "run", [o], [CATALOG], []).value.kind.Continue?
  {
    var after, o := Settled(plan, 0, true), Catalogued(actionId);
    SettledIsIdle(plan, 0, true);
    assert after.steps[0].status == StepCompleted;
    ValidIsDistinct(after);
    OneMerged([], ObservationKey, o);
    OneMerged([], ArtifactKey, CATALOG);
    assert [] + [o] == [o] && [] + [CATALOG] == [CATALOG];
    hide MergeAll, ProgressDecision, ValidPlan, Distinct;
    SuccessContinues(after, [o], [CATALOG], []);
  }

  lemma CatalogRound() returns (moves: seq<Move>, s: State, actionId: string)
    ensures Possible(moves) && Reach(SETUP, moves) == At(PlanOrReplan, s) && Standing(s, 6) && Idle(s)
    ensures s.observations == [Catalogued(actionId)] && s.artifacts == [CATALOG] && s.evidence == [] && s.turns == []
    ensures !s.replanRequested && !SomeBlocked(s)
  {
    moves := StartRound();
    Loads();
    FirstActIsFair();
    var d, env := FirstAct(), QUIET.(initialDecision := Returned(Some(FirstAct())));
    actionId := d.nextAction.value.actionId;
    ValidIsDistinct(d.plan);
    CatalogSettles(d.plan, actionId);
    assert [] + [Catalogued(actionId)] == [Catalogued(actionId)];
    hide FirstAct, Standing, EnvValid, Driven, Possible, Reach, DecisionOf, MergeAll, ProgressDecision, ValidPlan,
         FirstRunnable,
         ValidObservation, LeavesOneArtifact, Settled, Distinct, NothingPending;
    moves, s := Round(moves, LOADED, 0, env, d, 0, Catalogued(actionId), [CATALOG], []);
  }

  function ActionOf(s: State, toolName: string, arguments: Resolver.ToolArguments): string
    requires s.plan.Some?
  {
    var d := Appending(s.plan.value, toolName, arguments);
    if d.nextAction.Some? then d.nextAction.value.actionId else ""
  }

  /** A round in which the resolver appends the step. */
  lemma ResolverRound(
    moves: seq<Move>, s: State, n: nat, cached: Option<Resolver.QueryPlan>, question: Resolver.Question,
    planned: Outcome<Resolver.QueryPlan, AgentError>, toolName: string, arguments: Resolver.ToolArguments,
    o: Observation,
    artifacts: seq<ArtifactRef>, evidence: seq<EvidenceRef>) returns (longer: seq<Move>, t: State)
    requires Possible(moves) && Reach(SETUP, moves) == At(PlanOrReplan, s) && Standing(s, n) && n + 6 <= 97 && Idle(s)
    requires s.observations != [] && toolName in NAMES
    requires Resolver.Resolve(TOOLS, cached, ViewAt(s, question), planned, None).decision
             == Returned(Some(Appending(s.plan.value, toolName, arguments)))
    requires o.actionId == ActionOf(s, toolName, arguments) && o.toolName == toolName
    requires Recorded(s, o, artifacts, evidence) && (evidence == [] || !o.succeeded || SomeBlocked(s))
    ensures Possible(longer) && Reach(SETUP, longer) == At(PlanOrReplan, t) && Standing(t, n + 6) && Idle(t)
    ensures t.observations == s.observations + [o] && t.artifacts == artifacts && t.evidence == evidence
    ensures t.turns == s.turns && t.replanRequested == !o.succeeded
    ensures SomeBlocked(t) <==> SomeBlocked(s) || !o.succeeded
  {
    AskingIsFair(s, cached, question, planned);
    AppendingActs(s.plan.value, toolName, arguments);
    hide Standing, EnvValid, Driven, Possible, Reach, DecisionOf, Recorded, Appending, Resolver.Resolve, SomeBlocked,
         ValidPlan;
    hide NothingPending, Resolver.RequiresModelCall, FirstRunnable, DecisionOk, Distinct, ViewAt;
    longer, t := AppendRound(moves, s, n, Asking(s, cached, question, planned), toolName, arguments, o, artifacts,
        evidence);
  }

  // ---- a call without a charge ----

  const ABOUT_MEANING := Resolver.Question(true, false)

  const X := Artifact("x", OtherArtifact("semantic"))

  const Y := Artifact("y", OtherArtifact("semantic"))

  const BOUND := EvidenceRef("e", "semantic_definition", "y", PINS, "schema", "y")

  const TIMEOUT := AgentError(INTERNAL_ERROR, true)

  const IDS := ["o1", "o2", "o3", "o4", "o5"]

  function Collecting(a: ArtifactRef): Resolver.ToolArguments {
    Resolver.CollectArguments(a.artifactId, "semantic_definition", TOOLS.semanticRefs)
  }

  function Inspected(id: string, actionId: string, a: ArtifactRef): Observation {
    Observation(id, actionId, "semantic.inspect", true, "", [a], [], [], None)
  }

  function TimedOut(id: string, actionId: string, toolName: string): Observation {
    Observation(id, actionId, toolName, false, "", [], [], [], Some(TIMEOUT))
  }

  function Bound(id: string, actionId: string): Observation {
    Observation(id, actionId, "evidence.collect", true, "", [Y], [BOUND], [], None)
  }

  /** So many observations, numbered, and the record they leave. */
  ghost predicate Seen(s: State, n: nat, artifacts: seq<ArtifactRef>, evidence: seq<EvidenceRef>) {
    && 0 < |s.observations| == n <= |IDS| && (forall i | 0 <= i < n :: s.observations[i].observationId == IDS[i])
    && s.artifacts == artifacts && s.evidence == evidence
  }

  predicate LastInspected(s: State, a: ArtifactRef) {
    && s.observations != [] && Resolver.IsInspection(s.observations[|s.observations| - 1])
    && s.observations[|s.observations| - 1].artifactRefs == [a]
  }

  /** The first inspection left X. */
  predicate XInspected(s: State) {
    |s.observations| > 1 && Resolver.IsInspection(s.observations[1]) && s.observations[1].artifactRefs == [X]
  }

  lemma IdsDiffer(s: State, n: nat, artifacts: seq<ArtifactRef>, evidence: seq<EvidenceRef>)
    requires Seen(s, n, artifacts, evidence) && n < |IDS|
    ensures !Contains(s.observations, ObservationKey, IDS[n])
  {
    assert forall i, j | 0 <= i < j < |IDS| :: IDS[i] != IDS[j];
  }

  lemma SeenMore(s: State, n: nat, artifacts: seq<ArtifactRef>, evidence: seq<EvidenceRef>, o: Observation, t: State)
    requires Seen(s, n, artifacts, evidence) && n < |IDS| && o.observationId == IDS[n]
    requires t.observations == s.observations + [o]
    ensures Seen(t, n + 1, t.artifacts, t.evidence)
    ensures t.observations[n] == o && (XInspected(s) ==> XInspected(t))
  {
  }

  lemma NothingWanted(v: Resolver.View)
    requires FirstRunnable(v.plan.steps).None?
    ensures !Resolver.WantsCatalog(TOOLS, v) && !Resolver.WantsSemantics(TOOLS, v)
  {
  }

  lemma IdleHasNothing(s: State)
    requires Idle(s)
    ensures FirstRunnable(s.plan.value.steps).None?
  {
  }

  lemma AllowedAppends(v: Resolver.View, toolName: string, arguments: Resolver.ToolArguments)
    requires FirstRunnable(v.plan.steps).None? && toolName in v.allowed
    ensures Resolver.IfAllowed(TOOLS, v, toolName, arguments) == Appending(v.plan, toolName, arguments)
  {
  }

  /** Before any query, a question of meaning has the binding inspected, and then what was left bound. */
  lemma BeforeMeaning(v: Resolver.View)
    requires v.question == ABOUT_MEANING && FirstRunnable(v.plan.steps).None?
             && Resolver.FirstPrepared(v.artifacts).None?
    requires "semantic.inspect" in v.allowed && "evidence.collect" in v.allowed
    ensures var a := Resolver.SemanticArtifact(v.observations);
            && (a.None? ==>
                  Resolver.BeforeQuery(TOOLS, v) == Some(Appending(v.plan, "semantic.inspect", Resolver.NoArguments)))
            && (a.Some? && !Resolver.Evidenced(v, a.value.artifactId) ==>
                  Resolver.BeforeQuery(TOOLS, v) == Some(Appending(v.plan, "evidence.collect", Collecting(a.value))))
  {
    NothingWanted(v);
    AllowedAppends(v, "semantic.inspect", Resolver.NoArguments);
    var a := Resolver.SemanticArtifact(v.observations);
    if a.Some? {
      AllowedAppends(v, "evidence.collect", Collecting(a.value));
    }
    hide Resolver.IfAllowed, Appending, Resolver.WantsCatalog, Resolver.WantsSemantics, Resolver.SemanticArtifact;
    hide Resolver.FirstPrepared, Resolver.Evidenced;
  }

  lemma ResolvesMeaning(s: State, planned: Outcome<Resolver.QueryPlan, AgentError>)
    requires Idle(s) && s.allowedTools == NAMES && !s.replanRequested && Resolver.FirstPrepared(s.artifacts).None?
    requires s.observations != [] && s.observations[|s.observations| - 1].succeeded
    ensures var r := Resolver.Resolve(TOOLS, None, ViewAt(s, ABOUT_MEANING), planned, None).decision;
            var a := Resolver.SemanticArtifact(s.observations);
            && (a.None? ==> r == Returned(Some(Appending(s.plan.value, "semantic.inspect", Resolver.NoArguments))))
            && (a.Some? && (forall e | e in s.evidence :: e.artifactId != a.value.artifactId) ==>
                  r == Returned(Some(Appending(s.plan.value, "evidence.collect", Collecting(a.value)))))
  {
    IdleHasNothing(s);
    MeaningView(s);
    var v := ViewAt(s, ABOUT_MEANING);
    BeforeMeaning(v);
    if Resolver.BeforeQuery(TOOLS, v).Some? {
      EarlyResolves(v, planned);
    }
    hide ViewAt, Appending, Idle, Resolver.BeforeQuery, Resolver.SemanticArtifact, Resolver.Resolve, Collecting,
         Resolver.FirstPrepared;
  }

  lemma MeaningView(s: State)
    requires s.plan.Some? && s.allowedTools == NAMES && !s.replanRequested
    requires s.observations != [] && s.observations[|s.observations| - 1].succeeded
    ensures var v := ViewAt(s, ABOUT_MEANING);
            && v.plan == s.plan.value && v.question == ABOUT_MEANING && !v.queryResumed && Resolver.LastSucceeded(v)
            && v.observations == s.observations && v.artifacts == s.artifacts
            && "semantic.inspect" in v.allowed && "evidence.collect" in v.allowed
            && forall id :: Resolver.Evidenced(v, id) <==> exists e | e in s.evidence :: e.artifactId == id
  {
    MayInspectAll(s);
    assert "semantic.inspect" in NAMES && "evidence.collect" in NAMES;
    hide AllowedSpecs;
  }

  lemma EarlyResolves(v: Resolver.View, planned: Outcome<Resolver.QueryPlan, AgentError>)
    requires Resolver.BeforeQuery(TOOLS, v).Some? && Resolver.LastSucceeded(v) && !v.queryResumed
    ensures Resolver.Resolve(TOOLS, None, v, planned, None).decision == Returned(Resolver.BeforeQuery(TOOLS, v))
  {
    hide Resolver.BeforeQuery, Resolver.AfterQuery, Resolver.WithQuery;
  }

  lemma SemanticAfter(observations: seq<Observation>, o: Observation)
    ensures Resolver.SemanticArtifact(observations + [o]) ==
            if Resolver.IsInspection(o) && o.artifactRefs != [] then Some(o.artifactRefs[0])
            else Resolver.SemanticArtifact(observations)
  {
    assert (observations + [o])[..|observations|] == observations;
  }

  lemma NonePrepared(artifacts: seq<ArtifactRef>)
    requires forall a | a in artifacts :: !a.kind.PreparedQuery?
    ensures Resolver.FirstPrepared(artifacts).None?
  {
  }

  lemma StandsIdle(s: State, n: nat)
    requires Standing(s, n) && Idle(s)
    ensures s.plan.Some? && s.allowedTools == NAMES
  {
  }

  /** What the last inspection left is bound next. */
  lemma BindsLast(s: State, a: ArtifactRef)
    requires Idle(s) && s.allowedTools == NAMES && !s.replanRequested && Resolver.FirstPrepared(s.artifacts).None?
    requires s.evidence == [] && s.observations != []
    requires var o := s.observations[|s.observations| - 1]; Resolver.IsInspection(o) && o.artifactRefs == [a]
    ensures Resolver.Resolve(TOOLS, None, ViewAt(s, ABOUT_MEANING), Raised(FAILURE), None).decision
            == Returned(Some(Appending(s.plan.value, "evidence.collect", Collecting(a))))
  {
    var init := s.observations[..|s.observations| - 1];
    assert s.observations == init + [s.observations[|s.observations| - 1]];
    SemanticAfter(init, s.observations[|s.observations| - 1]);
    hide Resolver.Resolve, Appending, Collecting, Idle, Resolver.FirstPrepared;
    ResolvesMeaning(s, Raised(FAILURE));
  }

  lemma CatalogIsSeen(s: State, actionId: string)
    requires s.observations == [Catalogued(actionId)] && s.artifacts == [CATALOG] && s.evidence == []
    ensures Seen(s, 1, [CATALOG], []) && Resolver.SemanticArtifact(s.observations).None?
    ensures s.observations[|s.observations| - 1].succeeded
  {
    assert s.observations == [] + [Catalogued(actionId)];
    SemanticAfter([], Catalogued(actionId));
    assert Resolver.SemanticArtifact([]).None?;
  }

  lemma InspectionRecorded(s: State, n: nat, artifacts: seq<ArtifactRef>, actionId: string, a: ArtifactRef)
    requires Seen(s, n, artifacts, []) && n < |IDS|
    requires (a == X || a == Y) && (forall b | b in artifacts :: b.artifactId != a.artifactId)
    requires AllFits(AUTHORITY, "run", artifacts, [])
    ensures var o := Inspected(IDS[n], actionId, a);
            && o.actionId == actionId && o.toolName == "semantic.inspect" && o.succeeded && o.observationId == IDS[n]
            && o.artifactRefs == [a] && Recorded(s, o, artifacts + [a], [])
    ensures AllFits(AUTHORITY, "run", artifacts + [a], [])
  {
    IdsDiffer(s, n, artifacts, []);
    OneMerged(artifacts, ArtifactKey, a);
    hide MergeAll, Seen, Contains;
  }

  lemma TimeoutRecorded(s: State, n: nat, artifacts: seq<ArtifactRef>, actionId: string, toolName: string)
    requires Seen(s, n, artifacts, []) && n < |IDS|
    ensures var o := TimedOut(IDS[n], actionId, toolName);
            && o.actionId == actionId && o.toolName == toolName && !o.succeeded && o.observationId == IDS[n]
            && Recorded(s, o, artifacts, [])
  {
    IdsDiffer(s, n, artifacts, []);
    hide Seen, Contains;
  }

  lemma BoundRecorded(s: State, n: nat, actionId: string)
    requires Seen(s, n, [CATALOG, X, Y], []) && n < |IDS|
    ensures var o := Bound(IDS[n], actionId);
            && o.actionId == actionId && o.toolName == "evidence.collect" && o.succeeded && o.observationId == IDS[n]
            && Recorded(s, o, [CATALOG, X, Y], [BOUND])
  {
    var o := Bound(IDS[n], actionId);
    IdsDiffer(s, n, [CATALOG, X, Y], []);
    KnownMerged([CATALOG, X, Y], ArtifactKey, Y);
    OneMerged([], EvidenceKey, BOUND);
    assert [] + [BOUND] == [BOUND];
    assert o.artifactRefs[0] in o.artifactRefs && ValidObservation(o);
    var artifacts := [CATALOG, X, Y];
    assert artifacts[..2] == [CATALOG, X];
    assert EvidenceFits(BOUND, AUTHORITY, artifacts);
    hide Seen, Contains, MergeAll;
  }

  lemma CatalogFits()
    ensures AllFits(AUTHORITY, "run", [CATALOG], [])
    ensures [CATALOG] + [X] == [CATALOG, X] && [CATALOG, X] + [Y] == [CATALOG, X, Y]
  {
  }

  /** The first inspection leaves X. */
  lemma InspectionRound() returns (moves: seq<Move>, s: State)
    ensures Possible(moves) && Reach(SETUP, moves) == At(PlanOrReplan, s) && Standing(s, 12) && Idle(s)
    ensures Seen(s, 2, [CATALOG, X], []) && XInspected(s) && LastInspected(s, X) && !s.replanRequested && s.turns == []
  {
    var before, actionId;
    moves, before, actionId := CatalogRound();
    CatalogIsSeen(before, actionId);
    NonePrepared([CATALOG]);
    ResolvesMeaning(before, Raised(FAILURE));
    var actionId' := ActionOf(before, "semantic.inspect", Resolver.NoArguments);
    CatalogFits();
    InspectionRecorded(before, 1, [CATALOG], actionId', X);
    var o := Inspected(IDS[1], actionId', X);
    hide Standing, Possible, Reach, Recorded, Idle, Appending, Resolver.Resolve, ActionOf, ViewAt, AllFits, Seen,
         SomeBlocked;
    hide Inspected, Catalogued, Artifact;
    moves, s := ResolverRound(moves, before, 6, None, ABOUT_MEANING, Raised(FAILURE), "semantic.inspect",
        Resolver.NoArguments,
                              o, [CATALOG] + [X], []);
    SeenMore(before, 1, [CATALOG], [], o, s);
  }

  /** Binding evidence to X fails, and a replan is asked for. */
  lemma FailedBindingRound() returns (moves: seq<Move>, s: State)
    ensures Possible(moves) && Reach(SETUP, moves) == At(PlanOrReplan, s) && Standing(s, 18) && Idle(s)
    ensures Seen(s, 3, [CATALOG, X], []) && XInspected(s) && s.replanRequested && SomeBlocked(s) && s.turns == []
    ensures !s.observations[|s.observations| - 1].succeeded
  {
    var before;
    moves, before := InspectionRound();
    NonePrepared([CATALOG, X]);
    BindsLast(before, X);
    var actionId := ActionOf(before, "evidence.collect", Collecting(X));
    TimeoutRecorded(before, 2, [CATALOG, X], actionId, "evidence.collect");
    var o := TimedOut(IDS[2], actionId, "evidence.collect");
    hide Standing, Possible, Reach, Recorded, Idle, Appending, Resolver.Resolve, SomeBlocked, ActionOf, ViewAt,
         Collecting;
    hide TimedOut, Artifact;
    moves, s := ResolverRound(moves, before, 12, None, ABOUT_MEANING, Raised(FAILURE), "evidence.collect",
        Collecting(X),
                              o, [CATALOG, X], []);
    hide Seen, XInspected;
    SeenMore(before, 2, [CATALOG, X], [], o, s);
  }

  /** After the failure the resolver leaves the choice to the planner. */
  function Rewriting(s: State): Env
    requires s.plan.Some?
  {
    QUIET.(resolved := Returned(None),
        planned := Returned(Appending(s.plan.value, "semantic.inspect", Resolver.NoArguments)))
  }

  lemma RewritingIsFair(s: State)
    requires Idle(s) && s.allowedTools == NAMES && s.replanRequested && s.turns == []
    requires s.observations != [] && !s.observations[|s.observations| - 1].succeeded
    ensures var env := Rewriting(s);
            && EnvValid(env) && Driven(SETUP, TOOLS, s, env) && !env.observed.Returned? && env.now == 0
               && !env.cancelled
            && DecisionOf(SETUP, s, env) == Some(Appending(s.plan.value, "semantic.inspect", Resolver.NoArguments))
  {
    var d, env := Appending(s.plan.value, "semantic.inspect", Resolver.NoArguments), Rewriting(s);
    AppendingActs(s.plan.value, "semantic.inspect", Resolver.NoArguments);
    hide Appending, ValidPlan, NothingPending, FirstRunnable, Distinct;
    Resolver.LeavesOpenIff(TOOLS, None, ViewAt(s, ABOUT_MEANING), Raised(FAILURE), None);
    assert env.resolved == Resolver.Resolve(TOOLS, None, ViewAt(s, ABOUT_MEANING), Raised(FAILURE), None).decision;
    MayInspectAll(s);
    SomeRunnable(d.plan.steps);
    assert ValidateDecision(d, s.plan, AllowedSpecs(SETUP, s)).None?;
  }

  /** The planner writes the next revision: it inspects the semantic binding again, and Y is left. */
  lemma RewriteRound() returns (moves: seq<Move>, s: State)
    ensures Possible(moves) && Reach(SETUP, moves) == At(PlanOrReplan, s) && Standing(s, 24) && Idle(s)
    ensures Seen(s, 4, [CATALOG, X, Y], []) && XInspected(s) && LastInspected(s, Y) && !s.replanRequested
            && SomeBlocked(s) && s.turns == []
  {
    hide Standing, Possible, Reach, Recorded, Idle, SomeBlocked, AllFits, ActionOf, XInspected;
    var before;
    moves, before := FailedBindingRound();
    StandsIdle(before, 18);
    var actionId := ActionOf(before, "semantic.inspect", Resolver.NoArguments);
    CatalogFits();
    XFits();
    InspectionRecorded(before, 3, [CATALOG, X], actionId, Y);
    var o := Inspected(IDS[3], actionId, Y);
    hide Inspected, Artifact, Seen;
    moves, s := PlannerRound(moves, before, 18, o, [CATALOG, X] + [Y]);
    SeenMore(before, 3, [CATALOG, X], [], o, s);
  }

  lemma PlannerRound(moves: seq<Move>, s: State, n: nat, o: Observation, artifacts: seq<ArtifactRef>)
    returns (longer: seq<Move>, t: State)
    requires Possible(moves) && Reach(SETUP, moves) == At(PlanOrReplan, s) && Standing(s, n) && n + 6 <= 97 && Idle(s)
    requires s.replanRequested && s.turns == [] && s.observations != []
             && !s.observations[|s.observations| - 1].succeeded
    requires o.actionId == ActionOf(s, "semantic.inspect", Resolver.NoArguments) && o.toolName == "semantic.inspect"
    requires Recorded(s, o, artifacts, [])
    ensures Possible(longer) && Reach(SETUP, longer) == At(PlanOrReplan, t) && Standing(t, n + 6) && Idle(t)
    ensures t.observations == s.observations + [o] && t.artifacts == artifacts && t.evidence == []
    ensures t.turns == s.turns && t.replanRequested == !o.succeeded
    ensures SomeBlocked(t) <==> SomeBlocked(s) || !o.succeeded
  {
    RewritingIsFair(s);
    AppendingActs(s.plan.value, "semantic.inspect", Resolver.NoArguments);
    hide Standing, EnvValid, Driven, Possible, Reach, DecisionOf, Recorded, Idle, Appending, SomeBlocked, Rewriting;
    longer, t := AppendRound(moves, s, n, Rewriting(s), "semantic.inspect", Resolver.NoArguments, o, artifacts, []);
  }

  lemma XFits()
    ensures AllFits(AUTHORITY, "run", [CATALOG, X], [])
  {
  }

  /** Evidence is bound to Y. */
  lemma BindingRound() returns (moves: seq<Move>, s: State)
    ensures Possible(moves) && Reach(SETUP, moves) == At(PlanOrReplan, s) && Standing(s, 30) && Idle(s)
    ensures Seen(s, 5, [CATALOG, X, Y], [BOUND]) && XInspected(s) && !s.replanRequested
    ensures s.observations[4].succeeded && Resolver.SemanticArtifact(s.observations) == Some(Y)
  {
    var before;
    moves, before := RewriteRound();
    NonePrepared([CATALOG, X, Y]);
    BindsLast(before, Y);
    var actionId := ActionOf(before, "evidence.collect", Collecting(Y));
    BoundRecorded(before, 4, actionId);
    var o := Bound(IDS[4], actionId);
    YStays(before, o);
    hide Standing, Possible, Reach, Recorded, Idle, Appending, Resolver.Resolve, SomeBlocked, ActionOf, ViewAt, SETUP,
         Collecting;
    moves, s := ResolverRound(moves, before, 24, None, ABOUT_MEANING, Raised(FAILURE), "evidence.collect",
        Collecting(Y),
                              o, [CATALOG, X, Y], [BOUND]);
    hide Seen, XInspected;
    SeenMore(before, 4, [CATALOG, X, Y], [], o, s);
  }

  lemma YStays(s: State, o: Observation)
    requires LastInspected(s, Y) && o.toolName == "evidence.collect"
    ensures Resolver.SemanticArtifact(s.observations + [o]) == Some(Y)
  {
    var init := s.observations[..|s.observations| - 1];
    assert s.observations == init + [s.observations[|s.observations| - 1]];
    SemanticAfter(init, s.observations[|s.observations| - 1]);
    SemanticAfter(s.observations, o);
  }

  /**
   * After a timeout the planner has the semantic binding inspected again. Evidence is bound to the new
   * artifact only, and the resolver then asks the model for a query without announcing the call.
   */
  lemma ACallGoesUncharged() returns (moves: seq<Move>)
    ensures Possible(moves) && AtPlanning(Reach(SETUP, moves)) && Reach(SETUP, moves).state.plan.Some?
    ensures var v := ViewAt(Reach(SETUP, moves).state, ABOUT_MEANING);
            Resolver.ConsultsModel(TOOLS, None, v) && !Resolver.RequiresModelCall(TOOLS, None, v)
  {
    var s;
    moves, s := BindingRound();
    NonePrepared([CATALOG, X, Y]);
    BoundIsUndercharged(s);
    Resolver.ChargeIsExactIff(TOOLS, None, ViewAt(s, ABOUT_MEANING));
    hide Resolver.Undercharged, Possible, Reach, Resolver.ConsultsModel, Resolver.RequiresModelCall, ViewAt;
  }

  lemma BoundIsUndercharged(s: State)
    requires Idle(s) && !s.replanRequested && Resolver.FirstPrepared(s.artifacts).None? && s.evidence == [BOUND]
    requires XInspected(s) && s.observations[|s.observations| - 1].succeeded
    requires Resolver.SemanticArtifact(s.observations) == Some(Y)
    ensures Resolver.Undercharged(TOOLS, None, ViewAt(s, ABOUT_MEANING))
  {
    var v := ViewAt(s, ABOUT_MEANING);
    assert FirstRunnable(s.plan.value.steps).None?;
    assert v.observations[1] in v.observations && X in v.observations[1].artifactRefs;
    assert "x" in Resolver.SemanticIds(v.observations) && !Resolver.Evidenced(v, "x");
    assert BOUND in v.evidence && Resolver.Evidenced(v, "y");
    hide ValidPlan, Resolver.SemanticArtifact, AllowedSpecs;
  }

  // ---- a charge without a call ----

  const ABOUT_DATA := Resolver.Question(false, false)

  const UNCLEAR := Resolver.QueryPlan(Resolver.QueryUnclear, "Which amount?", [], "")

  const CLEAR := Resolver.QueryPlan(Resolver.QueryReady, "", ["amount"], "query")

  const QUERY := Artifact("query", PreparedQuery)

  const ANSWER := ResumeText("n")

  const COMPILING := Resolver.CompileArguments("query")

  const RUNNING := Resolver.RunArguments("query", 100)

  function Compiled(id: string, actionId: string): Observation {
    Observation(id, actionId, "query.compile", true, "", [QUERY], [], [], None)
  }

  function Clarification(plan: AnalysisPlan): PlannerDecision {
    Resolver.Clarifying(TOOLS, plan, "Which amount?")
  }

  /** Nothing comes before a query for data. */
  lemma BeforeData(v: Resolver.View)
    requires v.question == ABOUT_DATA && FirstRunnable(v.plan.steps).None?
    ensures Resolver.BeforeQuery(TOOLS, v).None?
  {
    NothingWanted(v);
    hide Resolver.IfAllowed, Resolver.WantsCatalog, Resolver.WantsSemantics, Resolver.SemanticArtifact,
         Resolver.FirstPrepared;
  }

  /** The query is not clear: the user is asked. */
  lemma ResolvesUnclear(s: State)
    requires Idle(s) && s.allowedTools == NAMES && !s.replanRequested && Resolver.FirstPrepared(s.artifacts).None?
    requires s.observations != [] && s.observations[|s.observations| - 1].succeeded
    ensures Resolver.Resolve(TOOLS, None, ViewAt(s, ABOUT_DATA), Returned(UNCLEAR), None).decision
            == Returned(Some(Clarification(s.plan.value)))
  {
    IdleHasNothing(s);
    BeforeData(ViewAt(s, ABOUT_DATA));
    hide AllowedSpecs, Idle, Resolver.BeforeQuery, Resolver.AfterQuery, Resolver.FirstPrepared, Resolver.IfAllowed;
  }

  /** Replanning for the answered question, the resolver drops what it kept, and compiles what is clear now. */
  lemma ResolvesClear(s: State)
    requires Idle(s) && s.allowedTools == NAMES && Resolver.FirstPrepared(s.artifacts).None?
    requires s.replanRequested && s.turns != [] && s.turns[|s.turns| - 1].origin.FromDatasetQuery?
    ensures Resolver.Resolve(TOOLS, Some(UNCLEAR), ViewAt(s, ABOUT_DATA), Returned(CLEAR), None).decision
            == Returned(Some(Appending(s.plan.value, "query.compile", COMPILING)))
  {
    IdleHasNothing(s);
    var v := ViewAt(s, ABOUT_DATA);
    BeforeData(v);
    MayInspectAll(s);
    assert "query.compile" in NAMES;
    AllowedAppends(v, "query.compile", COMPILING);
    hide AllowedSpecs, Idle, Resolver.BeforeQuery, Resolver.AfterQuery, Resolver.FirstPrepared, Resolver.IfAllowed,
         Appending;
  }

  /** The compiled query is run. */
  lemma ResolvesCompiled(s: State)
    requires Idle(s) && s.allowedTools == NAMES && !s.replanRequested && s.artifacts == [CATALOG, QUERY]
    requires s.observations != [] && s.observations[|s.observations| - 1].succeeded
    ensures Resolver.Resolve(TOOLS, Some(CLEAR), ViewAt(s, ABOUT_DATA), Raised(FAILURE), None).decision
            == Returned(Some(Appending(s.plan.value, "query.execute", RUNNING)))
  {
    IdleHasNothing(s);
    var v := ViewAt(s, ABOUT_DATA);
    BeforeData(v);
    MayInspectAll(s);
    assert "query.execute" in NAMES;
    AllowedAppends(v, "query.execute", RUNNING);
    QueryIsPrepared(s.artifacts);
    hide AllowedSpecs, Idle, Resolver.BeforeQuery, Resolver.WithQuery, Resolver.FirstPrepared, Resolver.LastResult,
         Resolver.IfAllowed, Appending, Resolver.ResultArguments;
  }

  lemma QueryIsPrepared(artifacts: seq<ArtifactRef>)
    requires artifacts == [CATALOG, QUERY]
    ensures Resolver.FirstPrepared(artifacts) == Some(QUERY) && Resolver.LastResult(artifacts).None?
  {
    assert artifacts[1..] == [QUERY] && artifacts[..1] == [CATALOG] && [CATALOG][..0] == [];
  }

  lemma AnswerIsAccepted()
    ensures ResumeMessage(ANSWER).Returned?
  {
  }

  /** A clarification passes the guard, and the run waits. */
  lemma Waits(s: State, d: PlannerDecision) returns (t: State)
    requires s.status.AgentWaiting? && s.error.None? && s.budget.deadlineAt == 100
    requires s.plannerDecision == Some(d) && d.kind.Clarify? && s.waitingRequest.Some?
    ensures t == s.(nextRoute := Some(RequestInput))
    ensures Next(SETUP, At(GuardDecision, s), Advance(QUIET)) == At(RequestInput, t)
    ensures Next(SETUP, At(RequestInput, t), Advance(QUIET)) == Paused(t)
  {
    t := s.(nextRoute := Some(RequestInput));
    assert Guard(SETUP, s, QUIET) == Finished(t, []);
  }

  /** The answer sends the run back to plan. */
  lemma Resumes(s: State) returns (t: State)
    requires s.status.AgentWaiting? && s.error.None? && s.budget.deadlineAt == 100 && s.waitingRequest.Some?
    ensures Next(SETUP, Paused(s), Resume(QUIET, ANSWER)) == At(PlanOrReplan, t)
    ensures t.status.AgentRunning? && t.error.None? && t.replanRequested
    ensures t == s.(turns := s.turns + [FingerprintOf(SETUP, s.waitingRequest.value)], waitingRequest := None,
                    status := AgentRunning, replanRequested := true, nextRoute := Some(PlanOrReplan))
  {
    AnswerIsAccepted();
    hide ResumeMessage;
    t := Request(SETUP, s, QUIET, Some(ANSWER)).state;
  }

  /** The question is asked, the run waits, and is resumed. */
  lemma Clarifies(s: State, n: nat, env: Env) returns (s1: State, s2: State, t: State)
    requires Standing(s, n) && n + 4 <= 97 && env.now == 0 && !env.cancelled && s.turns == [] && s.plan.Some?
    requires DecisionOf(SETUP, s, env) == Some(Clarification(s.plan.value))
    ensures Next(SETUP, At(PlanOrReplan, s), Advance(env)) == At(GuardDecision, s1)
    ensures Next(SETUP, At(GuardDecision, s1), Advance(QUIET)) == At(RequestInput, s2)
    ensures Next(SETUP, At(RequestInput, s2), Advance(QUIET)) == Paused(s2)
    ensures Next(SETUP, Paused(s2), Resume(QUIET, ANSWER)) == At(PlanOrReplan, t)
    ensures Standing(t, n + 4) && t.plan == s.plan && t.replanRequested
    ensures |t.turns| == 1 && t.turns[0].origin.FromDatasetQuery?
    ensures t.observations == s.observations && t.artifacts == s.artifacts && t.evidence == s.evidence
  {
    var d := Clarification(s.plan.value);
    s1 := Plans(s, n, env, d);
    assert s1 == Planned(s, d, s1.budget, None).state;
    hide DecisionOf, Next;
    s2 := Waits(s1, d);
    t := Resumes(s2);
  }

  lemma ClarificationRound() returns (moves: seq<Move>, s: State)
    ensures Possible(moves) && Reach(SETUP, moves) == At(PlanOrReplan, s) && Standing(s, 10) && Idle(s)
    ensures Seen(s, 1, [CATALOG], []) && s.replanRequested && |s.turns| == 1 && s.turns[0].origin.FromDatasetQuery?
  {
    var before, actionId;
    moves, before, actionId := CatalogRound();
    CatalogIsSeen(before, actionId);
    NonePrepared([CATALOG]);
    ResolvesUnclear(before);
    var env := Asking(before, None, ABOUT_DATA, Returned(UNCLEAR));
    AskingIsFair(before, None, ABOUT_DATA, Returned(UNCLEAR));
    hide Clarification, Asking, Resolver.Resolve, Catalogued, EnvValid, Driven, DecisionOf, Idle, Standing;
    var s1, s2;
    s1, s2, s := Clarifies(before, 6, env);
    SameIdle(before, s);
    moves := FourMoves(moves, before, env, s1, s2, s);
  }

  lemma SameIdle(s: State, t: State)
    requires Idle(s) && t.plan == s.plan
    ensures Idle(t)
  {
  }

  lemma FourMoves(moves: seq<Move>, s: State, env: Env, s1: State, s2: State, t: State) returns (longer: seq<Move>)
    requires Possible(moves) && Reach(SETUP, moves) == At(PlanOrReplan, s)
    requires EnvValid(env) && !env.observed.Returned? && Driven(SETUP, TOOLS, s, env)
    requires Next(SETUP, At(PlanOrReplan, s), Advance(env)) == At(GuardDecision, s1)
    requires Next(SETUP, At(GuardDecision, s1), Advance(QUIET)) == At(RequestInput, s2)
    requires Next(SETUP, At(RequestInput, s2), Advance(QUIET)) == Paused(s2)
    requires Next(SETUP, Paused(s2), Resume(QUIET, ANSWER)) == At(PlanOrReplan, t)
    ensures Possible(longer) && Reach(SETUP, longer) == At(PlanOrReplan, t)
  {
    hide Next, Reach, Possible;
    QuietIsFair(At(GuardDecision, s1));
    QuietIsFair(At(RequestInput, s2));
    QuietIsValid();
    assert Fair(At(PlanOrReplan, s), Advance(env)) && Fair(Paused(s2), Resume(QUIET, ANSWER));
    hide Fair, EnvValid, Driven;
    var four := [Advance(env), Advance(QUIET), Advance(QUIET), Resume(QUIET, ANSWER)];
    longer := moves + four;
    MoreMoves(moves, four, [At(PlanOrReplan, s), At(GuardDecision, s1), At(RequestInput, s2), Paused(s2),
        At(PlanOrReplan, t)]);
  }

  lemma CompileRecorded(s: State, actionId: string)
    requires Seen(s, 1, [CATALOG], [])
    ensures var o := Compiled(IDS[1], actionId);
            && o.actionId == actionId && o.toolName == "query.compile" && o.succeeded && o.observationId == IDS[1]
            && Recorded(s, o, [CATALOG] + [QUERY], [])
  {
    IdsDiffer(s, 1, [CATALOG], []);
    OneMerged([CATALOG], ArtifactKey, QUERY);
    hide MergeAll, Seen, Contains;
  }

  lemma CompileRound() returns (moves: seq<Move>, s: State)
    ensures Possible(moves) && Reach(SETUP, moves) == At(PlanOrReplan, s) && Standing(s, 16) && Idle(s)
    ensures Seen(s, 2, [CATALOG, QUERY], []) && s.observations[1].succeeded
    ensures !s.replanRequested && |s.turns| == 1 && s.turns[0].origin.FromDatasetQuery?
  {
    hide Standing, Possible, Reach, Recorded, Idle, Appending, Resolver.Resolve, SomeBlocked, ActionOf, ViewAt;
    var before;
    moves, before := ClarificationRound();
    StandsIdle(before, 10);
    NonePrepared([CATALOG]);
    ResolvesClear(before);
    var actionId := ActionOf(before, "query.compile", COMPILING);
    CompileRecorded(before, actionId);
    var o := Compiled(IDS[1], actionId);
    assert [CATALOG] + [QUERY] == [CATALOG, QUERY];
    hide Compiled, Artifact;
    moves, s := ResolverRound(moves, before, 10, Some(UNCLEAR), ABOUT_DATA, Returned(CLEAR), "query.compile", COMPILING,
                              o, [CATALOG] + [QUERY], []);
    hide Seen, XInspected;
    SeenMore(before, 1, [CATALOG], [], o, s);
  }

  /**
   * A query is clarified, compiled and run, and the run times out. Replanning, the resolver announces a
   * model call again because the answered question is still the last one, and runs the query it has.
   */
  lemma AChargeBuysNoCall() returns (moves: seq<Move>)
    ensures Possible(moves) && AtPlanning(Reach(SETUP, moves)) && Reach(SETUP, moves).state.plan.Some?
    ensures var v := ViewAt(Reach(SETUP, moves).state, ABOUT_DATA);
            forall cached :: Resolver.RequiresModelCall(TOOLS, cached, v) && !Resolver.ConsultsModel(TOOLS, cached, v)
  {
    var before, s;
    moves, before := CompileRound();
    ResolvesCompiled(before);
    var actionId := ActionOf(before, "query.execute", RUNNING);
    TimeoutRecorded(before, 2, [CATALOG, QUERY], actionId, "query.execute");
    QueryIsPrepared([CATALOG, QUERY]);
    hide Standing, Possible, Reach, Recorded, Idle, Appending, Resolver.Resolve, SomeBlocked, ActionOf, ViewAt,
         TimedOut, Artifact;
    moves, s := ResolverRound(moves, before, 16, Some(CLEAR), ABOUT_DATA, Raised(FAILURE), "query.execute", RUNNING,
                              TimedOut(IDS[2], actionId, "query.execute"), [CATALOG, QUERY], []);
    TimeoutIsOvercharged(s);
  }

  lemma TimeoutIsOvercharged(s: State)
    requires s.plan.Some? && s.replanRequested && Resolver.FirstPrepared(s.artifacts).Some?
    requires s.turns != [] && s.turns[|s.turns| - 1].origin.FromDatasetQuery?
    ensures forall cached ::
              Resolver.RequiresModelCall(TOOLS, cached, ViewAt(s, ABOUT_DATA))
                  && !Resolver.ConsultsModel(TOOLS, cached, ViewAt(s, ABOUT_DATA))
  {
    forall cached
      ensures Resolver.RequiresModelCall(TOOLS, cached, ViewAt(s, ABOUT_DATA))
              && !Resolver.ConsultsModel(TOOLS, cached, ViewAt(s, ABOUT_DATA))
    {
      Resolver.ChargeIsExactIff(TOOLS, cached, ViewAt(s, ABOUT_DATA));
    }
  }
}
