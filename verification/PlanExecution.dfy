/**
 * The order in which a run of the analysis graph carries out its plans: when the announced starts
 * follow the dependencies, exactly, and when the plan is a record of what was started.
 */
module PlanExecution {
  import opened Outcomes
  import opened AgentModels
  import opened AgentEvaluator
  import opened AgentRouting
  import opened AgentGuard
  import opened AnalysisGraph
  import opened AnalysisPlanner
  import opened PlanGraph
  import opened PlanEdits
  import Resolver = DatasetResolver

  /** The steps that a node's payloads announce as started. */
  function StartedBy(payloads: seq<EventData>): seq<string> {
    if payloads == [] then []
    else
      StartedBy(payloads[..|payloads| - 1])
      + if payloads[|payloads| - 1].StepStarted? then [payloads[|payloads| - 1].stepId] else []
  }

  function StartedIn(setup: Setup, c: Config, m: Move): seq<string> {
    if Enabled(c, m) && !TurnOf(setup, c, m).Pause? then StartedBy(TurnOf(setup, c, m).payloads) else []
  }

  function Started(setup: Setup, moves: seq<Move>): seq<string> {
    if moves == [] then []
    else Started(setup, moves[..|moves| - 1]) + StartedIn(setup, Reach(setup, moves[..|moves| - 1]), moves[|moves| - 1])
  }

  predicate AtPlanning(c: Config) {
    c.At? && c.node.PlanOrReplan?
  }

  predicate Planning(setup: Setup, c: Config, m: Move) {
    AtPlanning(c) && m.Advance? && PlanGoesAhead(setup, c.state, m.env)
  }

  /** The steps of the plan that a planning move announces. */
  function NewSteps(setup: Setup, c: Config, m: Move): seq<AnalysisStep>
    requires Planning(setup, c, m)
  {
    DecisionOf(setup, c.state, m.env).value.plan.steps
  }

  // ---- what each point of a run is asked for ----

  /** No step was started twice, and what a started step of the plan waits for was started before it, or skipped. */
  ghost predicate InSequence(s: State, started: seq<string>) {
    Distinct(started) && (s.plan.Some? ==> DependenciesMet(s.plan.value.steps, started))
  }

  /** The plan is a record of the execution: besides, all that was started is in it, and its statuses tell what was. */
  ghost predicate Records(s: State, started: seq<string>) {
    if s.plan.Some? then InOrder(s.plan.value.steps, started) else started == []
  }

  /** Every action is assigned to a step that was started. */
  ghost predicate Assigned(s: State, started: seq<string>) {
    forall a | a in s.actionSteps :: s.actionSteps[a] in started
  }

  /** At every point of the run so far. */
  ghost predicate SequenceKept(setup: Setup, moves: seq<Move>) {
    && (moves == [] || SequenceKept(setup, moves[..|moves| - 1]))
    && InSequence(Reach(setup, moves).state, Started(setup, moves))
  }

  ghost predicate RecordKept(setup: Setup, moves: seq<Move>) {
    && (moves == [] || RecordKept(setup, moves[..|moves| - 1]))
    && Records(Reach(setup, moves).state, Started(setup, moves))
  }

  // ---- what a new plan must do for it ----

  /**
   * A plan about to be announced fits the steps started: those it still has wait only for earlier ones
   * or for skipped ones, and the step it starts is new and waits for started or skipped ones.
   */
  ghost predicate PlanFits(setup: Setup, c: Config, m: Move, started: seq<string>) {
    Planning(setup, c, m) ==>
      var steps := NewSteps(setup, c, m);
      var k := StartedStep(DecisionOf(setup, c.state, m.env).value);
      && DependenciesMet(steps, started)
      && (k.Some? ==> steps[k.value].stepId !in started && WaitsForStarted(steps, started, steps[k.value]))
  }

  ghost predicate PlansFit(setup: Setup, moves: seq<Move>) {
    moves == []
    || (var init := moves[..|moves| - 1];
        PlansFit(setup, init) && PlanFits(setup, Reach(setup, init), moves[|moves| - 1], Started(setup, init)))
  }

  ghost predicate PlanRecords(setup: Setup, c: Config, m: Move, started: seq<string>) {
    Planning(setup, c, m) ==> InOrder(NewSteps(setup, c, m), started)
  }

  // ---- who writes the plans ----

  function AllowedSpecs(setup: Setup, s: State): map<string, ToolSpec> {
    map n | n in setup.specs && n in s.allowedTools :: setup.specs[n]
  }

  /** Resolver and planner answer as they are written; what the tools and the models say is arbitrary. */
  ghost predicate Driven(setup: Setup, tools: Resolver.Tools, s: State, env: Env) {
    && (InitialAsked(setup, s) && env.initialDecision.Returned? ==>
          env.initialDecision.value == Some(Resolver.FirstDecision(tools, setup.runId, AllowedSpecs(setup, s).Keys)))
    && (ResolverAsked(setup, s) && env.resolved.Returned? ==>
          exists cached, question, planned, proposal ::
            env.resolved == Resolver.Resolve(
              tools, cached, Resolver.ViewOf(s, setup.authority.mode, AllowedSpecs(setup, s).Keys, question), planned,
                  proposal).decision)
    && (env.planned.Returned? ==>
          MayAnswer(s.plan, s.observations, s.replanRequested, AllowedSpecs(setup, s), env.planned.value))
  }

  ghost predicate DrivenRun(setup: Setup, tools: Resolver.Tools, moves: seq<Move>) {
    moves == []
    || (var init := moves[..|moves| - 1];
        && DrivenRun(setup, tools, init)
        && (AtPlanning(Reach(setup, init)) ==> Driven(setup, tools, Reach(setup, init).state, moves[|moves| - 1].env)))
  }

  /**
   * The planner writes a plan of its own while there is one already: after a failed or missing result,
   * on a replan, or with every step done.
   */
  predicate Rewrites(setup: Setup, c: Config, m: Move) {
    && Planning(setup, c, m) && c.state.plan.Some? && PlannerAsked(setup, c.state, m.env)
    && !KeepsPlan(c.state.plan, c.state.observations, c.state.replanRequested)
  }

  ghost predicate RewritesRecord(setup: Setup, moves: seq<Move>) {
    moves == []
    || (var init := moves[..|moves| - 1];
        && RewritesRecord(setup, init)
        && (Rewrites(setup, Reach(setup, init), moves[|moves| - 1]) ==>
              InOrder(NewSteps(setup, Reach(setup, init), moves[|moves| - 1]), Started(setup, init))))
  }

  /** What a planner that rewrites can see to: the plan it writes takes up where the run is. */
  ghost predicate RewritesTakeUp(setup: Setup, moves: seq<Move>) {
    moves == []
    || (var init := moves[..|moves| - 1];
        && RewritesTakeUp(setup, init)
        && (Rewrites(setup, Reach(setup, init), moves[|moves| - 1]) ==>
              TakesUp(Reach(setup, init).state.plan.value.steps,
                      NewSteps(setup, Reach(setup, init), moves[|moves| - 1]), Started(setup, init))))
  }

  // ---- the planning node ----

  lemma {:induction false} NothingStarted(payloads: seq<EventData>)
    requires forall d | d in payloads :: !d.StepStarted?
    ensures StartedBy(payloads) == []
  {
    if payloads != [] {
      assert payloads[|payloads| - 1] in payloads;
      assert forall d | d in payloads[..|payloads| - 1] :: d in payloads;
      NothingStarted(payloads[..|payloads| - 1]);
    }
  }

  // What a decision starts, and what it does to the plan and the assignment of actions.
  lemma PlannedStarts(s: State, d: PlannerDecision, budget: BudgetState, k: Option<nat>)
    requires k == StartedStep(d) && (k.Some? ==> d.nextAction.Some?)
    ensures var t := Planned(s, d, budget, k);
            && StartedBy(t.payloads) == (if k.Some? then [d.plan.steps[k.value].stepId] else [])
            && t.state.plan.Some?
            && (if k.None? then t.state.plan.value.steps == d.plan.steps && t.state.actionSteps == s.actionSteps
                else && Restates(d.plan.steps, t.state.plan.value.steps, d.plan.steps[k.value].stepId, StepRunning)
                     && t.state.actionSteps
                        == s.actionSteps[d.nextAction.value.actionId := d.plan.steps[k.value].stepId])
  {
    var t := Planned(s, d, budget, k);
    if k.None? {
      assert t.payloads == [PlanUpdated(d.plan)];
      NothingStarted(t.payloads);
    } else {
      assert t.payloads[..1] == [t.payloads[0]] && |t.payloads| == 2;
      NothingStarted(t.payloads[..1]);
    }
  }

  lemma PlannedInSequenceIff(s: State, d: PlannerDecision, budget: BudgetState, k: Option<nat>, started: seq<string>)
    requires k == StartedStep(d) && (k.Some? ==> d.nextAction.Some?) && Distinct(StepIds(d.plan.steps))
             && Distinct(started)
    ensures var t := Planned(s, d, budget, k);
            InSequence(t.state, started + StartedBy(t.payloads)) <==>
              && DependenciesMet(d.plan.steps, started)
              && (k.Some? ==> d.plan.steps[k.value].stepId !in started
                              && WaitsForStarted(d.plan.steps, started, d.plan.steps[k.value]))
  {
    PlannedStarts(s, d, budget, k);
    var t := Planned(s, d, budget, k);
    hide Planned, StartedBy, DependenciesMet, Distinct, WaitsForStarted;
    if k.None? {
      assert started + [] == started;
    } else {
      var step := d.plan.steps[k.value];
      DistinctSnoc(started, step.stepId);
      if step.stepId !in started {
        StartMeetsIff(d.plan.steps, t.state.plan.value.steps, started, k.value);
      }
    }
  }

  lemma PlannedRecordsIff(s: State, d: PlannerDecision, budget: BudgetState, k: Option<nat>, started: seq<string>)
    requires k == StartedStep(d) && (k.Some? ==> d.nextAction.Some?) && Distinct(StepIds(d.plan.steps))
    ensures var t := Planned(s, d, budget, k);
            Records(t.state, started + StartedBy(t.payloads)) <==> InOrder(d.plan.steps, started)
  {
    PlannedStarts(s, d, budget, k);
    var t := Planned(s, d, budget, k);
    hide Planned, StartedBy, Distinct, InOrder;
    if k.None? {
      assert started + [] == started;
    } else if InOrder(d.plan.steps, started) {
      StartKeepsOrder(d.plan.steps, t.state.plan.value.steps, started, k.value);
    } else if InOrder(t.state.plan.value.steps, started + [d.plan.steps[k.value].stepId]) {
      StartWasInOrder(d.plan.steps, t.state.plan.value.steps, started, k.value);
    }
  }

  lemma PlannedAssigns(s: State, d: PlannerDecision, budget: BudgetState, k: Option<nat>, started: seq<string>)
    requires k == StartedStep(d) && (k.Some? ==> d.nextAction.Some?) && Assigned(s, started)
    ensures Assigned(Planned(s, d, budget, k).state, started + StartedBy(Planned(s, d, budget, k).payloads))
  {
    PlannedStarts(s, d, budget, k);
  }

  // What every move keeps, and what the new plan alone decides at the planning node.
  ghost predicate StaysIff(setup: Setup, c: Config, m: Move, s: State, started: seq<string>, more: seq<string>) {
    && Assigned(s, started + more)
    && (InSequence(c.state, started) ==> (InSequence(s, started + more) <==> PlanFits(setup, c, m, started)))
    && (Records(c.state, started) ==> (Records(s, started + more) <==> PlanRecords(setup, c, m, started)))
  }

  lemma PlanStaysIff(setup: Setup, s: State, env: Env, started: seq<string>)
    requires Live(setup, s) && EnvValid(env) && Assigned(s, started)
    ensures var t := Plan(setup, s, env);
            StaysIff(setup, At(PlanOrReplan, s), Advance(env), t.state, started, StartedBy(t.payloads))
  {
    PlanGoesAheadIff(setup, s, env);
    if PlanGoesAhead(setup, s, env) {
      assert Distinct(StepIds(DecisionOf(setup, s, env).value.plan.steps));
      hide Plan, Live, PlanGoesAhead, Planned, DecisionOf, Distinct, Assigned, StaysIff, StartedStep, StartedBy,
           EnvValid;
      PlannedStaysIff(setup, s, env, Plan(setup, s, env).state.budget, started);
    } else {
      hide Plan, Live, PlanGoesAhead, InOrder, DependenciesMet, Distinct, EnvValid;
      assert Plan(setup, s, env).payloads == [] && started + [] == started;
    }
  }

  lemma PlannedStaysIff(setup: Setup, s: State, env: Env, budget: BudgetState, started: seq<string>)
    requires PlanGoesAhead(setup, s, env) && Assigned(s, started)
    requires var d := DecisionOf(setup, s, env).value;
             Distinct(StepIds(d.plan.steps)) && (StartedStep(d).Some? ==> d.nextAction.Some?)
    ensures var d := DecisionOf(setup, s, env).value;
            var t := Planned(s, d, budget, StartedStep(d));
            StaysIff(setup, At(PlanOrReplan, s), Advance(env), t.state, started, StartedBy(t.payloads))
  {
    var d := DecisionOf(setup, s, env).value;
    var t := Planned(s, d, budget, StartedStep(d));
    hide Planned, DecisionOf, Records, InOrder, DependenciesMet, Distinct, WaitsForStarted, Assigned, StartedStep,
         StartedBy,
         FirstRunnable, FingerprintOf, HasRoom, EnsureNodeEntry;
    PlannedAssigns(s, d, budget, StartedStep(d), started);
    PlannedRecordsIff(s, d, budget, StartedStep(d), started);
    if InSequence(s, started) {
      assert Distinct(started);
      hide InSequence;
      PlannedInSequenceIff(s, d, budget, StartedStep(d), started);
    }
  }

  // ---- the other nodes ----

  lemma ObserveStays(s: State, env: Env, started: seq<string>)
    requires Assigned(s, started) && Observe(s, env).Finished?
    ensures var t := Observe(s, env);
            && StartedBy(t.payloads) == [] && Assigned(t.state, started)
            && (InSequence(s, started) ==> InSequence(t.state, started))
            && (Records(s, started) ==> Records(t.state, started))
  {
    var t := Observe(s, env);
    NothingStarted(t.payloads);
    if t.state.plan != s.plan {
      var o := s.pendingObservation.value;
      var id, outcome := s.actionSteps[o.actionId], if o.succeeded then StepCompleted else StepBlocked;
      assert id in started && Restates(s.plan.value.steps, t.state.plan.value.steps, id, outcome);
      if InSequence(s, started) {
        SkippedKeepsMet(s.plan.value.steps, t.state.plan.value.steps, started);
      }
      if Records(s, started) {
        OutcomeKeepsOrder(s.plan.value.steps, t.state.plan.value.steps, started, id, outcome);
      }
    }
  }

  lemma FailStays(s: State, started: seq<string>)
    requires Assigned(s, started)
    ensures var t := FailRun(s);
            && StartedBy(t.payloads) == [] && Assigned(t.state, started)
            && (InSequence(s, started) ==> InSequence(t.state, started))
            && (Records(s, started) ==> Records(t.state, started))
  {
    var t := FailRun(s);
    NothingStarted(t.payloads);
    if s.plan.Some? {
      assert BlocksRunning(s.plan.value.steps, t.state.plan.value.steps);
      if InSequence(s, started) {
        SkippedKeepsMet(s.plan.value.steps, t.state.plan.value.steps, started);
      }
      if Records(s, started) {
        BlockingKeepsOrder(s.plan.value.steps, t.state.plan.value.steps, started);
      }
    }
  }

  // The other nodes leave the plan and the assignment of actions alone and start nothing.
  predicate LeavesPlan(s: State, t: Turn) {
    && !t.Crash?
    && (t.Finished? ==>
          && t.state.plan == s.plan && t.state.plannerDecision == s.plannerDecision
          && t.state.observations == s.observations && t.state.actionSteps == s.actionSteps
          && forall d | d in t.payloads :: !d.StepStarted?)
  }

  lemma EarlyLeavePlan(setup: Setup, s: State, env: Env)
    ensures LeavesPlan(INITIAL, Initialize(setup, INITIAL, env))
    ensures LeavesPlan(s, Load(s, env))
    ensures LeavesPlan(s, Guard(setup, s, env))
  {
    hide EnsureNodeEntry, GuardPlannerDecision;
  }

  lemma EvaluateLeavesPlan(setup: Setup, s: State, env: Env)
    ensures LeavesPlan(s, Evaluate(setup, s, env))
  {
    hide ProgressDecision, EnsureNodeEntry;
  }

  lemma RequestLeavesPlan(setup: Setup, s: State, env: Env, resume: Option<ResumeValue>)
    ensures LeavesPlan(s, Request(setup, s, env, resume))
  {
    hide ResumeMessage;
  }

  lemma SynthesizeLeavesPlan(setup: Setup, s: State, env: Env)
    ensures LeavesPlan(s, Synthesize(setup, s, env))
  {
    hide EnsureNodeEntry, Consume;
    var t := Synthesize(setup, s, env);
    assert |t.payloads| <= 1;
    assert t.payloads == [] || t.payloads[0].AnswerSynthesizing?;
  }

  lemma LateLeavePlan(s: State, env: Env)
    ensures LeavesPlan(s, Validate(s, env))
    ensures LeavesPlan(s, Persist(s, env))
    ensures LeavesPlan(s, Finalize(s, env))
  {
  }

  lemma OthersLeavePlan(setup: Setup, node: Node, s: State, env: Env, resume: Option<ResumeValue>)
    requires Ready(setup, node, s) && !node.PlanOrReplan? && !node.ObserveResult? && !node.Fail? && !node.ExecuteTool?
    ensures LeavesPlan(s, RunNode(setup, node, s, env, resume))
  {
    EarlyLeavePlan(setup, s, env);
    EvaluateLeavesPlan(setup, s, env);
    RequestLeavesPlan(setup, s, env, resume);
    SynthesizeLeavesPlan(setup, s, env);
    LateLeavePlan(s, env);
  }

  lemma ExecuteLeavesPlan(setup: Setup, s: State, env: Env)
    ensures var t := Execute(setup, s, env);
            && t.Finished? && t.state.plan == s.plan && t.state.plannerDecision == s.plannerDecision
               && t.state.observations == s.observations
            && t.state.actionSteps == s.actionSteps
            && forall d | d in t.payloads :: !d.StepStarted?
  {
    hide EnsureNodeEntry, Consume, CountersOf;
  }

  lemma CrashSaysLittle(s: State, env: Env)
    requires Observe(s, env).Crash?
    ensures forall d | d in Observe(s, env).payloads :: !d.StepStarted?
  {
  }

  lemma TurnStaysIff(setup: Setup, c: Config, m: Move, started: seq<string>)
    requires Fits(setup, c) && Enabled(c, m) && EnvValid(m.env) && Assigned(c.state, started)
    requires TurnOf(setup, c, m).Finished?
    ensures StaysIff(setup, c, m, TurnOf(setup, c, m).state, started, StartedBy(TurnOf(setup, c, m).payloads))
  {
    hide Plan, Observe, FailRun, Execute, Assigned, InSequence, Records, PlanGoesAhead, EnvValid;
    var node, s := NodeOf(c), c.state;
    if node.PlanOrReplan? {
      PlanStaysIff(setup, s, m.env, started);
    } else {
      assert started + [] == started;
      if node.ObserveResult? {
        ObserveStays(s, m.env, started);
      } else if node.Fail? {
        FailStays(s, started);
      } else {
        OtherStays(setup, c, m, started);
      }
    }
  }

  lemma OtherStays(setup: Setup, c: Config, m: Move, started: seq<string>)
    requires Fits(setup, c) && Enabled(c, m) && Assigned(c.state, started) && TurnOf(setup, c, m).Finished?
    requires NodeOf(c) !in {PlanOrReplan, ObserveResult, Fail}
    ensures var t := TurnOf(setup, c, m);
            && StartedBy(t.payloads) == [] && Assigned(t.state, started)
            && (InSequence(c.state, started) ==> InSequence(t.state, started))
            && (Records(c.state, started) ==> Records(t.state, started))
  {
    hide Initialize, Load, Guard, Execute, Evaluate, Request, Synthesize, Validate, Persist, Finalize;
    if NodeOf(c).ExecuteTool? {
      ExecuteLeavesPlan(setup, c.state, m.env);
    } else {
      OthersLeavePlan(setup, NodeOf(c), c.state, m.env, if m.Resume? then Some(m.value) else None);
    }
    NothingStarted(TurnOf(setup, c, m).payloads);
  }

  lemma MoveStaysIff(setup: Setup, c: Config, m: Move, started: seq<string>)
    requires Fits(setup, c) && EnvValid(m.env) && Assigned(c.state, started)
    ensures StaysIff(setup, c, m, Next(setup, c, m).state, started, StartedIn(setup, c, m))
  {
    hide RunNode, Assigned, InSequence, Records, PlanGoesAhead, EnvValid, Fits;
    if !Enabled(c, m) {
      assert started + [] == started;
    } else if TurnOf(setup, c, m).Finished? {
      LandedIs(NodeOf(c), TurnOf(setup, c, m).state);
      TurnStaysIff(setup, c, m, started);
    } else {
      StoppedTurnStays(setup, c, m, started);
    }
  }

  // An interrupt or a crash leaves the state, and neither comes from the planning node.
  lemma StoppedTurnStays(setup: Setup, c: Config, m: Move, started: seq<string>)
    requires Fits(setup, c) && EnvValid(m.env) && Enabled(c, m) && !TurnOf(setup, c, m).Finished?
    ensures Next(setup, c, m).state == c.state && started + StartedIn(setup, c, m) == started
    ensures !Planning(setup, c, m)
  {
    hide Initialize, Load, Plan, Guard, Execute, Observe, Evaluate, Request, Synthesize, Validate, Persist, Finalize,
         FailRun, PlanGoesAhead;
    MoveOk(setup, c, m);
    var t := TurnOf(setup, c, m);
    if t.Crash? {
      CrashSaysLittle(c.state, m.env);
      NothingStarted(t.payloads);
    }
  }

  // ---- over whole runs ----

  lemma {:induction false} AssignedAlways(setup: Setup, moves: seq<Move>)
    requires MovesValid(moves)
    ensures Assigned(Reach(setup, moves).state, Started(setup, moves))
  {
    hide Next, Fits, StartedIn, InSequence, Records, PlanFits, PlanRecords, EnvValid;
    if moves != [] {
      var init, m := moves[..|moves| - 1], moves[|moves| - 1];
      assert m in moves && forall x | x in init :: x in moves;
      AssignedAlways(setup, init);
      ReachFits(setup, init);
      MoveStaysIff(setup, Reach(setup, init), m, Started(setup, init));
    }
  }

  lemma RunStaysIff(setup: Setup, moves: seq<Move>, m: Move)
    requires MovesValid(moves) && EnvValid(m.env)
    ensures StaysIff(setup, Reach(setup, moves), m, Reach(setup, moves + [m]).state, Started(setup, moves),
            StartedIn(setup, Reach(setup, moves), m))
    ensures Started(setup, moves + [m]) == Started(setup, moves) + StartedIn(setup, Reach(setup, moves), m)
  {
    hide Next, Fits, StartedIn, StaysIff, Assigned, EnvValid;
    assert (moves + [m])[..|moves|] == moves;
    AssignedAlways(setup, moves);
    ReachFits(setup, moves);
    MoveStaysIff(setup, Reach(setup, moves), m, Started(setup, moves));
  }

  /**
   * Over every run, whoever plans: no step starts twice and every started step's dependencies were
   * started before it or skipped, at every point, if and only if every plan announced fits the steps
   * started before it.
   */
  lemma {:induction false} SequenceKeptIff(setup: Setup, moves: seq<Move>)
    requires MovesValid(moves)
    ensures SequenceKept(setup, moves) <==> PlansFit(setup, moves)
  {
    if moves != [] {
      var init, m := moves[..|moves| - 1], moves[|moves| - 1];
      assert m in moves && forall x | x in init :: x in moves;
      assert moves == init + [m];
      hide Reach, Started, StartedIn, PlanFits, PlanRecords, Records, Assigned, EnvValid;
      SequenceKeptIff(setup, init);
      RunStaysIff(setup, init, m);
    }
  }

  /** A plan that the planner does not rewrite goes on with the record, whoever wrote it. */
  lemma DrivenPlanRecords(setup: Setup, tools: Resolver.Tools, s: State, env: Env, started: seq<string>)
    requires EnvValid(env) && Driven(setup, tools, s, env) && Records(s, started)
    requires PlanGoesAhead(setup, s, env) && !Rewrites(setup, At(PlanOrReplan, s), Advance(env))
    ensures InOrder(DecisionOf(setup, s, env).value.plan.steps, started)
  {
    hide EnsureNodeEntry, HasRoom, FingerprintOf, FirstRunnable, InOrder;
    var steps := DecisionOf(setup, s, env).value.plan.steps;
    if PlannerAsked(setup, s, env) {
      if s.plan.None? {
        forall i | 0 <= i < |steps| ensures steps[i].status.StepPending? {
          assert steps[i] in steps;
        }
        PendingIsInOrder(steps);
      }
    } else if InitialAsked(setup, s) {
      Resolver.FirstDecisionIsSound(tools, setup.runId, AllowedSpecs(setup, s).Keys);
    } else {
      ResolvedEdits(setup, tools, s, env, started);
    }
  }

  lemma ResolvedEdits(setup: Setup, tools: Resolver.Tools, s: State, env: Env, started: seq<string>)
    requires Driven(setup, tools, s, env) && ResolverAsked(setup, s) && Records(s, started)
    requires env.resolved.Returned? && env.resolved.value.Some?
    ensures InOrder(env.resolved.value.value.plan.steps, started)
  {
    var cached, question, planned, proposal :|
      env.resolved == Resolver.Resolve(
        tools, cached, Resolver.ViewOf(s, setup.authority.mode, AllowedSpecs(setup, s).Keys, question), planned,
            proposal).decision;
    hide Resolver.Resolve, Edits, InOrder;
    assert Distinct(StepIds(s.plan.value.steps)) by { InOrderIsDistinct(s.plan.value.steps, started); }
    Resolver.ResolveIsSound(
      tools, cached, Resolver.ViewOf(s, setup.authority.mode, AllowedSpecs(setup, s).Keys, question),
      planned, proposal);
    EditKeepsOrder(s.plan.value.steps, env.resolved.value.value.plan.steps, started);
  }

  lemma InOrderIsDistinct(steps: seq<AnalysisStep>, started: seq<string>)
    requires InOrder(steps, started)
    ensures Distinct(StepIds(steps))
  {
  }

  /**
   * Over every run whose resolver and planner answer as they are written, whatever tools and models
   * say: the plan is a record of the execution at every point if and only if every plan the planner
   * writes over an existing one is in order with the steps started before it.
   */
  lemma {:induction false} RecordKeptIff(setup: Setup, tools: Resolver.Tools, moves: seq<Move>)
    requires MovesValid(moves) && DrivenRun(setup, tools, moves)
    ensures RecordKept(setup, moves) <==> RewritesRecord(setup, moves)
  {
    if moves != [] {
      var init, m := moves[..|moves| - 1], moves[|moves| - 1];
      assert m in moves && forall x | x in init :: x in moves;
      assert moves == init + [m];
      hide Reach, Started, StartedIn, PlanFits, InSequence, Assigned, EnvValid, Driven, Records, InOrder, PlanGoesAhead,
           KeepsPlan, DecisionOf;
      RecordKeptIff(setup, tools, init);
      RunStaysIff(setup, init, m);
      var c := Reach(setup, init);
      if RecordKept(setup, init) && Planning(setup, c, m) && !Rewrites(setup, c, m) {
        DrivenPlanRecords(setup, tools, c.state, m.env, Started(setup, init));
      }
    }
  }

  /** A plan that is a record at every point has kept its steps in sequence. */
  lemma {:induction false} RecordIsSequence(setup: Setup, moves: seq<Move>)
    requires RecordKept(setup, moves)
    ensures SequenceKept(setup, moves)
  {
    if moves != [] {
      hide Reach, Started;
      RecordIsSequence(setup, moves[..|moves| - 1]);
    }
  }

  /** So it is when every such plan takes up where the run is. */
  lemma {:induction false} TakingUpRecords(setup: Setup, tools: Resolver.Tools, moves: seq<Move>)
    requires MovesValid(moves) && DrivenRun(setup, tools, moves) && RewritesTakeUp(setup, moves)
    ensures RecordKept(setup, moves) && RewritesRecord(setup, moves)
  {
    RecordKeptIff(setup, tools, moves);
    if moves != [] {
      var init, m := moves[..|moves| - 1], moves[|moves| - 1];
      assert m in moves && forall x | x in init :: x in moves;
      hide Started, Driven, InOrder, TakesUp, PlanGoesAhead, EnvValid, Next, Fits;
      TakingUpRecords(setup, tools, init);
      if Rewrites(setup, Reach(setup, init), m) {
        TakingUpKeepsOrder(Reach(setup, init).state.plan.value.steps, NewSteps(setup, Reach(setup, init), m),
            Started(setup, init));
      }
    }
  }

  /**
   * Then the execution order is a linear extension of the plan: no step starts twice, whatever a
   * started step depends on was started earlier, or was skipped and never started, and every step
   * started is still in the plan.
   */
  lemma ExecutionRespectsDependencies(setup: Setup, tools: Resolver.Tools, moves: seq<Move>, k: nat, d: string)
    requires MovesValid(moves) && DrivenRun(setup, tools, moves) && RewritesTakeUp(setup, moves)
    requires k < |Started(setup, moves)|
    ensures Distinct(Started(setup, moves)) && Reach(setup, moves).state.plan.Some?
    ensures var steps := Reach(setup, moves).state.plan.value.steps;
            exists i | 0 <= i < |steps| ::
              && steps[i].stepId == Started(setup, moves)[k] && !steps[i].status.StepPending?
              && (d in steps[i].dependsOn ==> DependencyMet(steps, Started(setup, moves), k, d))
  {
    TakingUpRecords(setup, tools, moves);
    RecordedAt(Reach(setup, moves).state, Started(setup, moves), k, d);
  }

  lemma RecordedAt(s: State, started: seq<string>, k: nat, d: string)
    requires Records(s, started) && k < |started|
    ensures Distinct(started) && s.plan.Some?
    ensures exists i | 0 <= i < |s.plan.value.steps| ::
              && s.plan.value.steps[i].stepId == started[k] && !s.plan.value.steps[i].status.StepPending?
              && (d in s.plan.value.steps[i].dependsOn ==> DependencyMet(s.plan.value.steps, started, k, d))
  {
    var steps := s.plan.value.steps;
    assert started[k] in started;
    var i := StepIn(steps, started[k]);
    assert steps[i].stepId == started[k];
  }

  // ---- the plans of a run stay acceptable ----

  /** What reading the plan and the decision back from the state checks again. */
  ghost predicate PlansAcceptable(s: State) {
    && (s.plan.Some? ==> ValidPlan(s.plan.value))
    && (s.plannerDecision.Some? ==> DecisionOk(s.plannerDecision.value))
  }

  lemma PlanStaysAcceptable(setup: Setup, s: State, env: Env)
    requires Live(setup, s) && EnvValid(env) && PlansAcceptable(s)
    ensures PlansAcceptable(Plan(setup, s, env).state)
  {
    PlanGoesAheadIff(setup, s, env);
    var t := Plan(setup, s, env);
    if PlanGoesAhead(setup, s, env) {
      var d := DecisionOf(setup, s, env).value;
      assert DecisionOk(d);
      hide Plan, Live, PlanGoesAhead, Planned, DecisionOf, EnvValid, DecisionOk, PlansAcceptable;
      PlannedIsAcceptable(s, d, t.state.budget, StartedStep(d));
    }
  }

  lemma PlannedIsAcceptable(s: State, d: PlannerDecision, budget: BudgetState, k: Option<nat>)
    requires DecisionOk(d) && k == StartedStep(d) && (k.Some? ==> d.nextAction.Some?)
    ensures PlansAcceptable(Planned(s, d, budget, k).state)
  {
    StatusesDoNotMatter(d.plan, Planned(s, d, budget, k).state.plan.value);
  }

  lemma ObserveStaysAcceptable(s: State, env: Env)
    requires PlansAcceptable(s) && Observe(s, env).Finished?
    ensures PlansAcceptable(Observe(s, env).state)
  {
    if s.plan.Some? {
      StatusesDoNotMatter(s.plan.value, Observe(s, env).state.plan.value);
    }
  }

  lemma FailStaysAcceptable(s: State)
    requires PlansAcceptable(s)
    ensures PlansAcceptable(FailRun(s).state)
  {
    if s.plan.Some? {
      StatusesDoNotMatter(s.plan.value, FailRun(s).state.plan.value);
    }
  }

  lemma TurnStaysAcceptable(setup: Setup, c: Config, m: Move)
    requires Fits(setup, c) && Enabled(c, m) && EnvValid(m.env) && PlansAcceptable(c.state)
             && TurnOf(setup, c, m).Finished?
    ensures PlansAcceptable(TurnOf(setup, c, m).state)
  {
    hide Initialize, Load, Plan, Guard, Execute, Observe, Evaluate, Request, Synthesize, Validate, Persist, Finalize,
         FailRun;
    hide AcceptablePlan, WellFormed, DecisionOk, EnvValid;
    var node, s := NodeOf(c), c.state;
    if node.PlanOrReplan? {
      PlanStaysAcceptable(setup, s, m.env);
    } else if node.ObserveResult? {
      ObserveStaysAcceptable(s, m.env);
    } else if node.Fail? {
      FailStaysAcceptable(s);
    } else if node.ExecuteTool? {
      ExecuteLeavesPlan(setup, s, m.env);
    } else {
      OthersLeavePlan(setup, node, s, m.env, if m.Resume? then Some(m.value) else None);
    }
  }

  /**
   * In every reachable state, ended and failed ones included, the plan and the decision would pass
   * their validators again: unique ids and lists, known dependencies, no cycle, and a complete decision.
   */
  lemma {:induction false} EveryPlanIsAcceptable(setup: Setup, moves: seq<Move>)
    requires MovesValid(moves)
    ensures PlansAcceptable(Reach(setup, moves).state)
  {
    hide RunNode, PlansAcceptable, Fits, EnvValid;
    if moves == [] {
      NoPlanYet();
    } else {
      var init, m := moves[..|moves| - 1], moves[|moves| - 1];
      assert m in moves && forall x | x in init :: x in moves;
      var c := Reach(setup, init);
      EveryPlanIsAcceptable(setup, init);
      ReachFits(setup, init);
      if Enabled(c, m) && TurnOf(setup, c, m).Finished? {
        LandedIs(NodeOf(c), TurnOf(setup, c, m).state);
        TurnStaysAcceptable(setup, c, m);
      }
    }
  }

  lemma NoPlanYet()
    ensures PlansAcceptable(INITIAL)
  {
  }

  /** So whatever the resolver answers in a run passes the checks of the decision it is built into. */
  lemma ResolverAnswersPass(
    setup: Setup, moves: seq<Move>, tools: Resolver.Tools, cached: Option<Resolver.QueryPlan>,
    question: Resolver.Question,
    planned: Outcome<Resolver.QueryPlan, AgentError>, proposal: Option<string>)
    requires MovesValid(moves) && Reach(setup, moves).state.plan.Some?
    ensures var s := Reach(setup, moves).state;
            var v := Resolver.ViewOf(s, setup.authority.mode, AllowedSpecs(setup, s).Keys, question);
            var r := Resolver.Resolve(tools, cached, v, planned, proposal).decision;
            r.Returned? && r.value.Some? ==> DecisionOk(r.value.value)
  {
    hide Resolver.Resolve, Edits, AcceptablePlan, WellFormed;
    EveryPlanIsAcceptable(setup, moves);
    var s := Reach(setup, moves).state;
    AcceptableIsDistinct(s.plan.value.steps);
    Resolver.ResolveIsSound(
      tools, cached, Resolver.ViewOf(s, setup.authority.mode, AllowedSpecs(setup, s).Keys, question),
      planned, proposal);
  }

  lemma AcceptableIsDistinct(steps: seq<AnalysisStep>)
    requires AcceptablePlan(steps)
    ensures Distinct(StepIds(steps))
  {
  }
}
