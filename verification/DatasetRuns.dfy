/**
 * What a run with the dataset resolver cannot reach: a decision of the resolver without the catalog
 * inspection among the tools, because the first decision gives such a run up.
 */
module DatasetRuns {
  import opened Outcomes
  import opened AgentModels
  import opened AgentRouting
  import opened AgentGuard
  import opened AgentEvaluator
  import opened AnalysisGraph
  import opened AnalysisPlanner
  import opened AgentReducers
  import opened PlanEdits
  import opened PlanExecution
  import opened PlanGraph
  import Resolver = DatasetResolver

  predicate MayInspect(setup: Setup, s: State) {
    "catalog.inspect" in AllowedSpecs(setup, s)
  }

  /** On the way to `fail`, or there. */
  predicate GivenUp(c: Config) {
    || c.Ended?
    || (c.At? && c.node.Fail?)
    || (c.At? && c.node.GuardDecision?
        && (c.state.error.Some? || (c.state.plannerDecision.Some? && c.state.plannerDecision.value.kind.GiveUp?)))
  }

  /** Once there is a plan, the catalog can be inspected, or the run is given up. */
  predicate CatalogChecked(setup: Setup, c: Config) {
    && (c.At? && c.node in {InitializeRun, LoadContext} ==> c.state.plan.None?)
    && (c.state.plan.Some? && !MayInspect(setup, c.state) ==> GivenUp(c))
  }

  predicate KeepsTools(s: State, t: Turn) {
    t.Finished? ==> t.state.allowedTools == s.allowedTools && (t.state.plan.Some? ==> s.plan.Some?)
  }

  lemma PlanningKeepsTools(setup: Setup, s: State, env: Env)
    ensures Plan(setup, s, env).Finished? && Plan(setup, s, env).state.allowedTools == s.allowedTools
  {
    hide EnsureNodeEntry, Consume, Decide, FingerprintOf;
  }

  lemma MiddleKeepsTools(setup: Setup, s: State, env: Env)
    ensures KeepsTools(s, Guard(setup, s, env))
    ensures KeepsTools(s, Execute(setup, s, env))
    ensures KeepsTools(s, Observe(s, env))
  {
    hide EnsureNodeEntry, Consume, GuardPlannerDecision, CountersOf;
  }

  lemma EvaluateKeepsTools(setup: Setup, s: State, env: Env)
    ensures KeepsTools(s, Evaluate(setup, s, env))
  {
    hide EnsureNodeEntry, Consume, ProgressDecision;
  }

  lemma LateKeepTools(setup: Setup, s: State, env: Env, resume: Option<ResumeValue>)
    ensures KeepsTools(s, Request(setup, s, env, resume))
    ensures KeepsTools(s, Synthesize(setup, s, env))
  {
    hide EnsureNodeEntry, Consume, ResumeMessage, FingerprintOf;
  }

  lemma LastKeepTools(s: State, env: Env)
    ensures KeepsTools(s, Validate(s, env))
    ensures KeepsTools(s, Persist(s, env))
    ensures KeepsTools(s, Finalize(s, env))
    ensures KeepsTools(s, FailRun(s))
  {
    hide EnsureNodeEntry, Respond, EvidenceIds;
  }

  lemma FirstNodesCheck(setup: Setup, c: Config, m: Move)
    requires c.At? && c.node in {InitializeRun, LoadContext} && Fits(setup, c) && CatalogChecked(setup, c)
    ensures CatalogChecked(setup, Next(setup, c, m))
  {
    hide EnsureNodeEntry, AllowedSpecs;
  }

  /** A first decision without the catalog inspection gives up; a later one finds the catalog checked. */
  lemma PlanningChecks(setup: Setup, tools: Resolver.Tools, s: State, env: Env)
    requires setup.hasResolver && Live(setup, s) && Driven(setup, tools, s, env)
             && CatalogChecked(setup, At(PlanOrReplan, s))
    ensures CatalogChecked(setup, At(GuardDecision, Plan(setup, s, env).state))
  {
    PlanGoesAheadIff(setup, s, env);
    PlanningKeepsTools(setup, s, env);
    if PlanGoesAhead(setup, s, env) && s.plan.None? {
      FirstGivesUp(setup, tools, s, env);
    }
    hide Plan, Driven, PlanGoesAhead, DecisionOf, Live;
  }

  lemma FirstGivesUp(setup: Setup, tools: Resolver.Tools, s: State, env: Env)
    requires setup.hasResolver && s.plan.None? && Driven(setup, tools, s, env) && DecisionOf(setup, s, env).Some?
    ensures MayInspect(setup, s) || DecisionOf(setup, s, env).value.kind.GiveUp?
  {
    Resolver.FirstDecisionIsSound(tools, setup.runId, AllowedSpecs(setup, s).Keys);
  }

  lemma GuardChecks(setup: Setup, s: State, env: Env)
    requires CatalogChecked(setup, At(GuardDecision, s)) && Ready(setup, GuardDecision, s)
    ensures CatalogChecked(setup, Landed(GuardDecision, Guard(setup, s, env).state))
  {
    var t := Guard(setup, s, env);
    MiddleKeepsTools(setup, s, env);
    GuardGivesUp(setup, s, env);
    hide Guard, Ready;
    FailedRoute(GuardDecision);
    LandedIs(GuardDecision, t.state);
    NeverBackToStart(GuardDecision, t.state);
  }

  lemma GuardGivesUp(setup: Setup, s: State, env: Env)
    ensures var t := Guard(setup, s, env);
            && t.Finished?
            && (s.error.Some? || (s.plannerDecision.Some? && s.plannerDecision.value.kind.GiveUp?) ==>
                  t.state.error.Some? && t.state.nextRoute == Some(Fail))
  {
    hide EnsureNodeEntry;
  }

  lemma TurnChecks(setup: Setup, tools: Resolver.Tools, c: Config, m: Move)
    requires setup.hasResolver && Fits(setup, c) && Enabled(c, m) && EnvValid(m.env)
    requires AtPlanning(c) ==> Driven(setup, tools, c.state, m.env)
    requires CatalogChecked(setup, c) && TurnOf(setup, c, m).Finished?
    ensures CatalogChecked(setup, Next(setup, c, m))
  {
    hide Initialize, Load, Plan, Guard, Execute, Observe, Evaluate, Request, Synthesize, Validate, Persist, Finalize,
         FailRun;
    hide Driven, EnvValid;
    var node, s, t := NodeOf(c), c.state, TurnOf(setup, c, m);
    LandedIs(node, t.state);
    if node in {InitializeRun, LoadContext} {
      FirstNodesCheck(setup, c, m);
    } else if node.PlanOrReplan? {
      PlanningChecks(setup, tools, s, m.env);
    } else if node.GuardDecision? {
      GuardChecks(setup, s, m.env);
    } else {
      MiddleKeepsTools(setup, s, m.env);
      EvaluateKeepsTools(setup, s, m.env);
      LateKeepTools(setup, s, m.env, if m.Resume? then Some(m.value) else None);
      LastKeepTools(s, m.env);
      NeverBackToStart(node, t.state);
    }
  }

  lemma NeverBackToStart(node: Node, s: State)
    requires !node.InitializeRun?
    ensures Landed(node, s).At? ==> Landed(node, s).node !in {InitializeRun, LoadContext}
    ensures node.Fail? ==> Landed(node, s).Ended?
  {
  }

  lemma {:induction false} CatalogAlwaysChecked(setup: Setup, tools: Resolver.Tools, moves: seq<Move>)
    requires setup.hasResolver && MovesValid(moves) && DrivenRun(setup, tools, moves)
    ensures CatalogChecked(setup, Reach(setup, moves))
  {
    hide RunNode, Fits, EnvValid, Driven, CatalogChecked;
    if moves == [] {
      NoPlanAtStart(setup);
    } else {
      var init, m := moves[..|moves| - 1], moves[|moves| - 1];
      assert m in moves && forall x | x in init :: x in moves;
      var c := Reach(setup, init);
      CatalogAlwaysChecked(setup, tools, init);
      ReachFits(setup, init);
      if Enabled(c, m) {
        if TurnOf(setup, c, m).Finished? {
          TurnChecks(setup, tools, c, m);
        } else {
          StoppedChecks(setup, c, m);
        }
      }
    }
  }

  lemma NoPlanAtStart(setup: Setup)
    ensures CatalogChecked(setup, At(InitializeRun, INITIAL))
  {
  }

  // An interrupt or a crash leaves the state, in a node where nothing is given up.
  lemma StoppedChecks(setup: Setup, c: Config, m: Move)
    requires Fits(setup, c) && Enabled(c, m) && EnvValid(m.env) && CatalogChecked(setup, c)
             && !TurnOf(setup, c, m).Finished?
    ensures CatalogChecked(setup, Next(setup, c, m))
  {
    hide RunNode, AllowedSpecs, EnvValid;
    MoveOk(setup, c, m);
  }

  /**
   * Wherever a run asks its resolver to go on with a plan, the catalog inspection is allowed. So of the
   * cases in which a model call goes uncharged, the one of a catalog step that may not run is never met.
   */
  lemma CatalogIsAllowed(
    setup: Setup, tools: Resolver.Tools, moves: seq<Move>, cached: Option<Resolver.QueryPlan>,
    question: Resolver.Question)
    requires setup.hasResolver && MovesValid(moves) && DrivenRun(setup, tools, moves)
    requires Reach(setup, moves).At? && Reach(setup, moves).node.PlanOrReplan? && Reach(setup, moves).state.plan.Some?
    ensures var s := Reach(setup, moves).state;
            var v := Resolver.ViewOf(s, setup.authority.mode, AllowedSpecs(setup, s).Keys, question);
            && "catalog.inspect" in v.allowed
            && (Resolver.Undercharged(tools, cached, v) ==>
                  (v.question.needsSemantics && exists id | id in Resolver.SemanticIds(v.observations) ::
                      !Resolver.Evidenced(v, id))
                  || (Resolver.WantsSemantics(tools, v) && "semantic.inspect" !in v.allowed))
  {
    CatalogAlwaysChecked(setup, tools, moves);
    hide Reach, Resolver.WantsSemantics, Resolver.WantsCatalog, Resolver.Precedes;
  }

  // ---- runs in which the planner writes no plan over another ----

  ghost predicate NeverRewrites(setup: Setup, moves: seq<Move>) {
    moves == []
    || (var init := moves[..|moves| - 1];
        NeverRewrites(setup, init) && !Rewrites(setup, Reach(setup, init), moves[|moves| - 1]))
  }

  /** Inspecting the semantic binding leaves at most one artifact: the tool stores one. */
  predicate LeavesOneArtifact(o: Observation) {
    o.toolName == "semantic.inspect" ==> |o.artifactRefs| <= 1
  }

  predicate InspectionsLeaveOne(moves: seq<Move>) {
    forall m | m in moves && m.env.observed.Returned? :: LeavesOneArtifact(m.env.observed.value)
  }

  predicate NothingPending(steps: seq<AnalysisStep>) {
    forall s | s in steps :: !s.status.StepPending?
  }

  /** All semantic artifacts are one. */
  ghost predicate OneArtifact(observations: seq<Observation>) {
    forall a, b | a in Resolver.SemanticIds(observations) && b in Resolver.SemanticIds(observations) :: a == b
  }

  /** Where a semantic inspection is about to run or to be recorded, none has left an artifact yet. */
  predicate InspectsFresh(c: Config) {
    && (c.At? && c.node in {GuardDecision, ExecuteTool} && c.state.pendingAction.Some?
        && c.state.pendingAction.value.toolName == "semantic.inspect" ==>
          Resolver.SemanticArtifact(c.state.observations).None?)
    && (c.At? && c.node.ObserveResult? && c.state.pendingObservation.Some? ==>
          && LeavesOneArtifact(c.state.pendingObservation.value)
          && (c.state.pendingObservation.value.toolName == "semantic.inspect" ==>
                Resolver.SemanticArtifact(c.state.observations).None?))
  }

  /** Between decisions no step is left pending, and the semantic binding has been inspected once at most. */
  ghost predicate Tidy(c: Config) {
    GivenUp(c)
    || ((c.state.plan.Some? ==> NothingPending(c.state.plan.value.steps))
        && OneArtifact(c.state.observations) && InspectsFresh(c))
  }

  /** A resolver's decision on a plan without pending steps leaves none but the step it starts. */
  lemma SoundLeavesNone(v: Resolver.View, d: PlannerDecision, after: seq<AnalysisStep>)
    requires Resolver.Sound(v, d) && NothingPending(v.plan.steps) && |after| == |d.plan.steps|
    requires forall i | 0 <= i < |after| ::
               after[i] == d.plan.steps[i]
               || (StartedStep(d) == Some(i) && after[i] == d.plan.steps[i].(status := StepRunning))
    requires StartedStep(d).Some? ==> !after[StartedStep(d).value].status.StepPending?
    ensures NothingPending(after)
  {
    var before := v.plan.steps;
    forall i | 0 <= i < |after| ensures !after[i].status.StepPending? {
      if i < |before| {
        assert KeepsStep(before[i], d.plan.steps[i]) && before[i] in before;
      } else {
        assert d.kind.Act? && i == |before|;
      }
    }
  }

  /** Who decides in such a run: the resolver alone. */
  lemma ResolverDecides(setup: Setup, tools: Resolver.Tools, s: State, env: Env)
    requires setup.hasResolver && Driven(setup, tools, s, env) && PlanGoesAhead(setup, s, env)
    requires !Rewrites(setup, At(PlanOrReplan, s), Advance(env))
    ensures !PlannerAsked(setup, s, env)
    ensures s.plan.Some? ==> ResolverAsked(setup, s) && env.resolved.Returned? && env.resolved.value.Some?
  {
    hide EnsureNodeEntry, HasRoom, FingerprintOf, FirstRunnable;
    if s.plan.Some? && ResolverAsked(setup, s) && env.resolved == Returned(None) {
      var cached, question, planned, proposal :|
        env.resolved == Resolver.Resolve(
          tools, cached, Resolver.ViewOf(s, setup.authority.mode, AllowedSpecs(setup, s).Keys, question),
          planned, proposal).decision;
      hide Resolver.Resolve;
      Resolver.LeavesOpenIff(
        tools, cached, Resolver.ViewOf(s, setup.authority.mode, AllowedSpecs(setup, s).Keys, question),
        planned, proposal);
    }
  }

  lemma PlannedIsTidy(s: State, d: PlannerDecision, budget: BudgetState, v: Resolver.View)
    requires s.plan.Some? && v.plan == s.plan.value && v.observations == s.observations
    requires Resolver.Sound(v, d) && NothingPending(v.plan.steps) && OneArtifact(s.observations)
    requires StartedStep(d).Some? ==> d.nextAction.Some?
    requires d.nextAction.Some? && d.nextAction.value.toolName == "semantic.inspect" ==>
               Resolver.SemanticArtifact(v.observations).None?
    ensures Tidy(At(GuardDecision, Planned(s, d, budget, StartedStep(d)).state))
  {
    SoundLeavesNone(v, d, Planned(s, d, budget, StartedStep(d)).state.plan.value.steps);
    hide Resolver.Sound, Resolver.SemanticArtifact, Resolver.SemanticIds;
  }

  lemma ResolvedIsTidy(setup: Setup, tools: Resolver.Tools, s: State, env: Env, budget: BudgetState)
    requires s.plan.Some? && Driven(setup, tools, s, env) && ResolverAsked(setup, s)
    requires env.resolved.Returned? && env.resolved.value.Some? && Distinct(StepIds(s.plan.value.steps))
    requires Tidy(At(PlanOrReplan, s))
    requires StartedStep(env.resolved.value.value).Some? ==> env.resolved.value.value.nextAction.Some?
    ensures var d := env.resolved.value.value;
            Tidy(At(GuardDecision, Planned(s, d, budget, StartedStep(d)).state))
  {
    var cached, question, planned, proposal :|
      env.resolved == Resolver.Resolve(
        tools, cached, Resolver.ViewOf(s, setup.authority.mode, AllowedSpecs(setup, s).Keys, question),
        planned, proposal).decision;
    var v := Resolver.ViewOf(s, setup.authority.mode, AllowedSpecs(setup, s).Keys, question);
    hide Resolver.Resolve, Resolver.Sound, Planned, StartedStep;
    Resolver.ResolveIsSound(tools, cached, v, planned, proposal);
    Resolver.InspectsOnce(tools, cached, v, planned, proposal);
    PlannedIsTidy(s, env.resolved.value.value, budget, v);
  }

  lemma FirstIsTidy(setup: Setup, tools: Resolver.Tools, s: State, allowed: set<string>, budget: BudgetState)
    requires s.plan.None? && Tidy(At(PlanOrReplan, s))
    ensures var d := Resolver.FirstDecision(tools, setup.runId, allowed);
            (StartedStep(d).Some? ==> d.nextAction.Some?)
            && Tidy(At(GuardDecision, Planned(s, d, budget, StartedStep(d)).state))
  {
    Resolver.FirstDecisionIsSound(tools, setup.runId, allowed);
    var d := Resolver.FirstDecision(tools, setup.runId, allowed);
    hide Resolver.FirstDecision, Resolver.SemanticIds, Resolver.SemanticArtifact;
    assert |d.plan.steps| == 1;
  }

  lemma PlanningIsTidy(setup: Setup, tools: Resolver.Tools, s: State, env: Env)
    requires setup.hasResolver && Live(setup, s) && Driven(setup, tools, s, env) && Tidy(At(PlanOrReplan, s))
    requires !Rewrites(setup, At(PlanOrReplan, s), Advance(env))
    ensures Tidy(At(GuardDecision, Plan(setup, s, env).state))
  {
    PlanGoesAheadIff(setup, s, env);
    if PlanGoesAhead(setup, s, env) {
      ResolverDecides(setup, tools, s, env);
      var budget := Plan(setup, s, env).state.budget;
      if s.plan.Some? {
        assert DecisionOf(setup, s, env) == env.resolved.value;
        hide Plan, PlanGoesAhead, Planned, Tidy, Driven, StartedStep, DecisionOf, Rewrites;
        ResolvedIsTidy(setup, tools, s, env, budget);
      } else {
        assert DecisionOf(setup, s, env) == env.initialDecision.value;
        hide Plan, PlanGoesAhead, Planned, Tidy, StartedStep, DecisionOf, Rewrites;
        FirstIsTidy(setup, tools, s, AllowedSpecs(setup, s).Keys, budget);
      }
    }
  }

  lemma GuardIsTidy(setup: Setup, s: State, env: Env)
    requires Tidy(At(GuardDecision, s))
    ensures Tidy(Landed(GuardDecision, Guard(setup, s, env).state))
  {
    GuardGivesUp(setup, s, env);
    EarlyLeavePlan(setup, s, env);
    GuardKeepsAction(setup, s, env);
    var t := Guard(setup, s, env).state;
    hide Guard, NothingPending, OneArtifact, Resolver.SemanticArtifact;
    FailedRoute(GuardDecision);
    LandedIs(GuardDecision, t);
    GuardRoutes(t);
  }

  lemma GuardKeepsAction(setup: Setup, s: State, env: Env)
    ensures Guard(setup, s, env).state.pendingAction == s.pendingAction
  {
    hide EnsureNodeEntry, GuardPlannerDecision;
  }

  lemma GuardRoutes(s: State)
    ensures Landed(GuardDecision, s).At? ==> Landed(GuardDecision, s).node !in {GuardDecision, ObserveResult}
  {
  }

  lemma ExecuteIsTidy(setup: Setup, s: State, env: Env)
    requires Tidy(At(ExecuteTool, s)) && (env.observed.Returned? ==> LeavesOneArtifact(env.observed.value))
    requires Ready(setup, ExecuteTool, s)
    ensures Tidy(Landed(ExecuteTool, Execute(setup, s, env).state))
  {
    ExecuteLeavesPlan(setup, s, env);
    ExecuteBrings(setup, s, env);
    var t := Execute(setup, s, env).state;
    hide Execute, NothingPending, OneArtifact, Resolver.SemanticArtifact, LeavesOneArtifact;
    FailedRoute(ExecuteTool);
    LandedIs(ExecuteTool, t);
    ExecuteRoutes(t);
  }

  lemma ExecuteBrings(setup: Setup, s: State, env: Env)
    requires s.pendingAction.Some? && s.error.None?
    ensures var t := Execute(setup, s, env).state;
            if t.error.Some? then t.nextRoute == Some(Fail)
            else env.observed.Returned? && t.pendingObservation == Some(env.observed.value)
                 && env.observed.value.toolName == s.pendingAction.value.toolName
  {
    hide EnsureNodeEntry, Consume, CountersOf;
  }

  lemma ExecuteRoutes(s: State)
    ensures Landed(ExecuteTool, s).At? ==> Landed(ExecuteTool, s).node in {ObserveResult, Fail}
  {
  }

  lemma OneMoreIsOne(observations: seq<Observation>, o: Observation)
    requires OneArtifact(observations) && LeavesOneArtifact(o)
    requires o.toolName == "semantic.inspect" ==> Resolver.SemanticArtifact(observations).None?
    ensures OneArtifact(observations + [o])
  {
    var longer := observations + [o];
    if o.toolName == "semantic.inspect" {
      Resolver.SemanticArtifactIff(observations);
      forall id | id in Resolver.SemanticIds(longer) ensures o.artifactRefs != []
          && id == o.artifactRefs[0].artifactId {
        var p, a :| p in longer && Resolver.IsInspection(p) && a in p.artifactRefs && a.artifactId == id;
        assert p in observations ==> id in Resolver.SemanticIds(observations);
      }
    } else {
      forall id | id in Resolver.SemanticIds(longer) ensures id in Resolver.SemanticIds(observations) {
        var p, a :| p in longer && Resolver.IsInspection(p) && a in p.artifactRefs && a.artifactId == id;
        assert p in observations;
      }
    }
  }

  lemma OutcomeLeavesNone(steps: seq<AnalysisStep>, id: string, status: StepStatus)
    requires NothingPending(steps) && !status.StepPending?
    ensures NothingPending(SetStatus(steps, id, status))
  {
    var after := SetStatus(steps, id, status);
    forall s | s in after ensures !s.status.StepPending? {
      var i :| 0 <= i < |after| && after[i] == s;
      assert steps[i] in steps;
    }
  }

  lemma ObserveIsTidy(setup: Setup, s: State, env: Env)
    requires Tidy(At(ObserveResult, s)) && Ready(setup, ObserveResult, s) && Observe(s, env).Finished?
    ensures Tidy(Landed(ObserveResult, Observe(s, env).state))
  {
    var t := Observe(s, env).state;
    var o := s.pendingObservation.value;
    LandedIs(ObserveResult, t);
    FailedRoute(ObserveResult);
    ObserveRoutes(t);
    if t.error.None? {
      OutcomeLeavesNone(s.plan.value.steps, s.actionSteps[o.actionId],
          if o.succeeded then StepCompleted else StepBlocked);
      OneMoreIsOne(s.observations, o);
      FirstMerge(s.observations, o);
      hide OneArtifact, NothingPending, Resolver.SemanticArtifact, MergeAll, SetStatus;
    }
  }

  // One observation is appended, or was there before.
  lemma FirstMerge(observations: seq<Observation>, o: Observation)
    ensures var r := MergeAll(observations, ObservationKey, [o]);
            r.Returned? ==> r.value == observations || r.value == observations + [o]
  {
    assert [o][..0] == [];
  }

  lemma ObserveRoutes(s: State)
    ensures Landed(ObserveResult, s).At? ==> Landed(ObserveResult, s).node in {EvaluateProgress, Fail}
  {
  }

  lemma OtherIsTidy(setup: Setup, c: Config, m: Move)
    requires Fits(setup, c) && Enabled(c, m) && Tidy(c) && TurnOf(setup, c, m).Finished?
    requires NodeOf(c) !in {PlanOrReplan, GuardDecision, ExecuteTool, ObserveResult, Fail}
    ensures Tidy(Next(setup, c, m))
  {
    hide Initialize, Load, Evaluate, Request, Synthesize, Validate, Persist, Finalize;
    hide NothingPending, OneArtifact, Resolver.SemanticArtifact;
    var t := TurnOf(setup, c, m).state;
    OthersLeavePlan(setup, NodeOf(c), c.state, m.env, if m.Resume? then Some(m.value) else None);
    LandedIs(NodeOf(c), t);
    OtherRoutes(NodeOf(c), t);
  }

  lemma OtherRoutes(node: Node, s: State)
    requires node !in {PlanOrReplan, GuardDecision, ExecuteTool, ObserveResult}
    ensures Landed(node, s).At? ==> Landed(node, s).node !in {GuardDecision, ExecuteTool, ObserveResult}
  {
  }

  lemma TurnIsTidy(setup: Setup, tools: Resolver.Tools, c: Config, m: Move)
    requires setup.hasResolver && Fits(setup, c) && Enabled(c, m) && Tidy(c) && TurnOf(setup, c, m).Finished?
    requires AtPlanning(c) ==> Driven(setup, tools, c.state, m.env) && !Rewrites(setup, c, m)
    requires m.env.observed.Returned? ==> LeavesOneArtifact(m.env.observed.value)
    ensures Tidy(Next(setup, c, m))
  {
    hide Initialize, Load, Plan, Guard, Execute, Observe, Evaluate, Request, Synthesize, Validate, Persist, Finalize;
    hide FailRun, Driven, Rewrites, LeavesOneArtifact, Tidy;
    var node, s := NodeOf(c), c.state;
    if node.PlanOrReplan? {
      PlanningIsTidy(setup, tools, s, m.env);
    } else if node.GuardDecision? {
      GuardIsTidy(setup, s, m.env);
    } else if node.ExecuteTool? {
      ExecuteIsTidy(setup, s, m.env);
    } else if node.ObserveResult? {
      ObserveIsTidy(setup, s, m.env);
    } else if node.Fail? {
      EndIsTidy(setup, c, m);
    } else {
      OtherIsTidy(setup, c, m);
    }
  }

  lemma EndIsTidy(setup: Setup, c: Config, m: Move)
    requires c.At? && c.node.Fail? && Enabled(c, m)
    ensures Tidy(Next(setup, c, m))
  {
    NeverBackToStart(Fail, TurnOf(setup, c, m).state);
  }

  // An interrupt leaves the state in the input node, a crash in the observing one.
  lemma StoppedIsTidy(setup: Setup, c: Config, m: Move)
    requires Fits(setup, c) && Enabled(c, m) && EnvValid(m.env) && Tidy(c) && !TurnOf(setup, c, m).Finished?
    ensures Tidy(Next(setup, c, m))
  {
    hide RunNode, NothingPending, OneArtifact, EnvValid, Resolver.SemanticArtifact;
    MoveOk(setup, c, m);
  }

  lemma StartIsTidy()
    ensures Tidy(At(InitializeRun, INITIAL))
  {
  }

  lemma {:induction false} AlwaysTidy(setup: Setup, tools: Resolver.Tools, moves: seq<Move>)
    requires setup.hasResolver && MovesValid(moves) && DrivenRun(setup, tools, moves)
    requires NeverRewrites(setup, moves) && InspectionsLeaveOne(moves)
    ensures Tidy(Reach(setup, moves))
  {
    hide RunNode, Fits, EnvValid, Driven, Tidy, Rewrites, LeavesOneArtifact;
    if moves == [] {
      StartIsTidy();
    } else {
      var init, m := moves[..|moves| - 1], moves[|moves| - 1];
      assert m in moves && forall x | x in init :: x in moves;
      var c := Reach(setup, init);
      AlwaysTidy(setup, tools, init);
      ReachFits(setup, init);
      if Enabled(c, m) {
        if TurnOf(setup, c, m).Finished? {
          TurnIsTidy(setup, tools, c, m);
        } else {
          StoppedIsTidy(setup, c, m);
        }
      }
    }
  }

  lemma TidyIsCharged(
    tools: Resolver.Tools, cached: Option<Resolver.QueryPlan>, v: Resolver.View)
    requires NothingPending(v.plan.steps) && OneArtifact(v.observations)
    ensures !Resolver.Undercharged(tools, cached, v)
  {
    Resolver.SemanticArtifactIff(v.observations);
    assert FirstRunnable(v.plan.steps).None?;
    hide Resolver.SemanticIds, Resolver.SemanticArtifact, Resolver.Mentions, Resolver.Succeeded;
  }

  /**
   * Wherever the resolver goes on with a plan of a run in which the planner never wrote a plan over
   * another, no model call goes uncharged: no step is left whose wording asks for an inspection, and
   * the semantic binding has been inspected once at most.
   */
  lemma UnchargedOnlyAfterRewrite(
    setup: Setup, tools: Resolver.Tools, moves: seq<Move>, cached: Option<Resolver.QueryPlan>,
    question: Resolver.Question)
    requires setup.hasResolver && MovesValid(moves) && DrivenRun(setup, tools, moves) && InspectionsLeaveOne(moves)
    requires AtPlanning(Reach(setup, moves)) && Reach(setup, moves).state.plan.Some?
    ensures var s := Reach(setup, moves).state;
            var v := Resolver.ViewOf(s, setup.authority.mode, AllowedSpecs(setup, s).Keys, question);
            Resolver.Undercharged(tools, cached, v) ==> !NeverRewrites(setup, moves)
  {
    hide Reach, NeverRewrites, DrivenRun, NothingPending, OneArtifact, Resolver.Undercharged;
    if NeverRewrites(setup, moves) {
      AlwaysTidy(setup, tools, moves);
      var s := Reach(setup, moves).state;
      TidyIsCharged(tools, cached, Resolver.ViewOf(s, setup.authority.mode, AllowedSpecs(setup, s).Keys, question));
    }
  }
}
