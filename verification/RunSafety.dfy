/**
 * What a run of the analysis graph never does: run a tool that is not permitted, act after it was
 * stopped, or ask the same question twice.
 */
module RunSafety {
  import opened Outcomes
  import opened AgentModels
  import opened AgentRouting
  import opened AgentEvaluator
  import opened AgentGuard
  import opened AnalysisGraph
  import opened PlanGraph

  // ---- permitted tools ----

  /** Registered, in the run's view, for datasets, allowed in the mode, and called as its schema asks. */
  predicate Permitted(setup: Setup, s: State, action: AgentAction) {
    Governed(setup, s, action.toolName) && setup.specs[action.toolName].accepts(action.arguments)
  }

  predicate Governed(setup: Setup, s: State, toolName: string) {
    && toolName in setup.specs && toolName in s.allowedTools
    && setup.specs[toolName].datasetAuthority && setup.authority.mode in setup.specs[toolName].allowedModes
  }

  /**
   * The guard lets an action through if and only if it is permitted; other decisions have their own routes.
   * A refusal says whether the tool or its arguments were wrong.
   */
  lemma GuardPermits(setup: Setup, s: State, d: PlannerDecision)
    requires ValidDecision(d)
    ensures var verdict := GuardPlannerDecision(d, setup.authority.mode, s.allowedTools, setup.specs);
            && (verdict == Returned(ExecuteTool) <==> d.kind.Act? && Permitted(setup, s, d.nextAction.value))
            && (verdict == Returned(RequestInput) <==> d.kind.Clarify?)
            && (verdict == Returned(SynthesizeAnswer) <==> d.kind.Finish?)
            && (verdict == Returned(Fail) <==> d.kind.GiveUp?)
            && (verdict.Raised? ==>
                  verdict.error == if Governed(setup, s, d.nextAction.value.toolName) then AGENT_DECISION_INVALID
                                   else AGENT_ACTION_NOT_ALLOWED)
  {
  }

  predicate ActionPermitted(setup: Setup, c: Config) {
    c.At? && c.node.ExecuteTool? ==>
          c.state.pendingAction.Some? && Permitted(setup, c.state, c.state.pendingAction.value)
  }

  lemma LandsOnExecute(node: Node, s: State)
    requires Landed(node, s).At? && Landed(node, s).node.ExecuteTool?
    ensures node.GuardDecision? && s.nextRoute == Some(ExecuteTool)
  {
  }

  lemma GuardedActionPermitted(setup: Setup, s: State, env: Env)
    requires Ready(setup, GuardDecision, s)
    ensures ActionPermitted(setup, Landed(GuardDecision, Guard(setup, s, env).state))
  {
    var t := Guard(setup, s, env).state;
    if Landed(GuardDecision, t).At? && Landed(GuardDecision, t).node.ExecuteTool? {
      LandsOnExecute(GuardDecision, t);
      GuardPermits(setup, s, s.plannerDecision.value);
    }
  }

  lemma {:induction false} PermittedAlways(setup: Setup, moves: seq<Move>)
    requires MovesValid(moves)
    ensures ActionPermitted(setup, Reach(setup, moves))
  {
    if moves != [] {
      var init, m := moves[..|moves| - 1], moves[|moves| - 1];
      assert m in moves && forall x | x in init :: x in moves;
      PermittedAlways(setup, init);
      ReachFits(setup, init);
      assert moves == init + [m];
      Snoc(setup, init, m);
      MovePermitted(setup, Reach(setup, init), m);
    }
  }

  lemma MovePermitted(setup: Setup, c: Config, m: Move)
    requires Fits(setup, c) && ActionPermitted(setup, c)
    ensures ActionPermitted(setup, Next(setup, c, m))
  {
    if Enabled(c, m) && TurnOf(setup, c, m).Finished? {
      var t := TurnOf(setup, c, m);
      var next := Landed(NodeOf(c), t.state);
      if next.At? && next.node.ExecuteTool? {
        LandsOnExecute(NodeOf(c), t.state);
        GuardedActionPermitted(setup, c.state, m.env);
      }
    }
  }

  /** Whatever the planner asked for, a run starts permitted tools only. */
  lemma OnlyPermittedToolsStart(setup: Setup, moves: seq<Move>, m: Move, d: EventData)
    requires MovesValid(moves) && EnvValid(m.env) && Enabled(Reach(setup, moves), m)
    requires Reach(setup, moves).At? && Reach(setup, moves).node.ExecuteTool?
    requires d in TurnOf(setup, Reach(setup, moves), m).payloads && d.ToolStarted?
    ensures var s := Reach(setup, moves).state;
            && s.pendingAction.Some? && Permitted(setup, s, s.pendingAction.value)
            && d.toolName == s.pendingAction.value.toolName && d.actionId == s.pendingAction.value.actionId
  {
    PermittedAlways(setup, moves);
  }

  // ---- stopped runs ----

  /** A cancelled or expired run does nothing more than fail: no node says anything, and the error is set. */
  lemma StoppedRunOnlyFails(setup: Setup, moves: seq<Move>, m: Move)
    requires MovesValid(moves) && EnvValid(m.env) && Enabled(Reach(setup, moves), m)
    requires Blocked(Reach(setup, moves).state, m.env).Some?
    requires !NodeOf(Reach(setup, moves)).InitializeRun? && !NodeOf(Reach(setup, moves)).Fail?
    ensures var c := Reach(setup, moves);
            && TurnOf(setup, c, m).Finished? && TurnOf(setup, c, m).payloads == []
            && Next(setup, c, m).state.error.Some?
            && (c.state.error.None? ==>
                  Next(setup, c, m).state.error.value.code == if m.env.cancelled then CANCELLED else DEADLINE_EXCEEDED)
  {
    ReachFits(setup, moves);
    StoppedTurn(setup, NodeOf(Reach(setup, moves)), Reach(setup, moves).state, m.env,
        if m.Resume? then Some(m.value) else None);
  }

  lemma StoppedTurn(setup: Setup, node: Node, s: State, env: Env, resume: Option<ResumeValue>)
    requires Ready(setup, node, s) && Blocked(s, env).Some? && !node.InitializeRun? && !node.Fail?
    ensures var t := RunNode(setup, node, s, env, resume);
            && t.Finished? && t.payloads == [] && t.state.error.Some?
            && Landed(node, t.state).state == t.state
            && (s.error.None? ==> t.state.error.value.code == if env.cancelled then CANCELLED else DEADLINE_EXCEEDED)
  {
  }

  /** The first node of the run succeeded. */
  predicate Began(setup: Setup, moves: seq<Move>) {
    && moves != [] && moves[0].Advance?
    && Next(setup, At(InitializeRun, INITIAL), moves[0]).state.error.None?
  }

  lemma FirstMove(setup: Setup, moves: seq<Move>)
    requires moves != []
    ensures Reach(setup, moves[..1]) == Next(setup, At(InitializeRun, INITIAL), moves[0])
  {
    assert moves[..1][..0] == [];
  }

  lemma BeginsTheWindow(setup: Setup, env: Env)
    ensures var c := Next(setup, At(InitializeRun, INITIAL), Advance(env));
            c.state.error.None? <==>
              && setup.requestMode == setup.authority.mode
              && (setup.requestPins.None? || setup.requestPins.value == setup.authority.pins)
              && !env.cancelled
    ensures var s := Next(setup, At(InitializeRun, INITIAL), Advance(env)).state;
            s.error.None? ==>
              && !s.status.AgentInitializing?
              && s.budget.startedAt == env.now && s.budget.deadlineAt == env.now + setup.limits.maxDurationSeconds
  {
  }

  /** Over the whole run the window is the one its first node opened: so long from its start, and never moved. */
  lemma WindowIsFixed(setup: Setup, moves: seq<Move>)
    requires MovesValid(moves) && Began(setup, moves)
    ensures var b := Reach(setup, moves).state.budget;
            && b.startedAt == moves[0].env.now
            && b.deadlineAt == moves[0].env.now + setup.limits.maxDurationSeconds
  {
    hide Next, BudgetChain;
    FirstMove(setup, moves);
    BeginsTheWindow(setup, moves[0].env);
    assert moves[..1] + moves[1..] == moves;
    assert MovesValid(moves[..1]) && MovesValid(moves[1..]);
    BudgetsOnlyGrow(setup, moves[..1], moves[1..]);
  }

  /** A node that checks its entry is stopped exactly when the run is cancelled or its time is up. */
  lemma StoppedIff(setup: Setup, moves: seq<Move>, m: Move)
    requires MovesValid(moves) && Began(setup, moves) && Enabled(Reach(setup, moves), m)
    requires !NodeOf(Reach(setup, moves)).Fail?
    ensures Blocked(Reach(setup, moves).state, m.env) ==
            if m.env.cancelled then Some(CANCELLED)
            else if m.env.now >= moves[0].env.now + setup.limits.maxDurationSeconds then Some(DEADLINE_EXCEEDED)
            else None
  {
    WindowIsFixed(setup, moves);
    ReachFits(setup, moves);
    GoesOnActive(setup, Reach(setup, moves));
  }

  lemma GoesOnActive(setup: Setup, c: Config)
    requires Fits(setup, c) && (c.Paused? || (c.At? && !c.node.Fail?))
    ensures !IsTerminalStatus(c.state.status)
  {
  }

  // ---- questions ----

  /** Two requests are the same question exactly when they agree in everything, their prompts up to normalization. */
  lemma SameQuestionIff(setup: Setup, a: InputRequest, b: InputRequest)
    ensures FingerprintOf(setup, a) == FingerprintOf(setup, b) <==>
            && a.reason == b.reason && a.origin == b.origin && setup.fold(a.prompt) == setup.fold(b.prompt)
            && a.choices == b.choices && a.allowFreeText == b.allowFreeText
  {
  }

  /** About to ask, or asking: the guard holds a clarification, or the run stands at or waits in the input node. */
  predicate Asks(c: Config) {
    || c.Paused?
    || (c.At? && c.node.RequestInput?)
    || (c.At? && c.node.GuardDecision? && c.state.error.None? && c.state.waitingRequest.Some?)
  }

  /** Answered questions all differ, and the one asked now is none of them. */
  ghost predicate NoQuestionTwice(setup: Setup, c: Config) {
    && Distinct(c.state.turns)
    && (Asks(c) && c.state.waitingRequest.Some?
       ==> FingerprintOf(setup, c.state.waitingRequest.value) !in c.state.turns)
  }

  lemma AsksComesFrom(node: Node, s: State)
    ensures Asks(Landed(node, s)) ==> node.PlanOrReplan? || node.GuardDecision? || node.EvaluateProgress?
    ensures Asks(Landed(node, s)) && node.PlanOrReplan? ==> s.error.None? && s.waitingRequest.Some?
  {
  }

  lemma PlanAsksAnew(setup: Setup, s: State, env: Env)
    requires Ready(setup, PlanOrReplan, s) && EnvValid(env)
    ensures var t := Plan(setup, s, env).state;
            && t.turns == s.turns
            && (t.error.None? && t.waitingRequest.Some? ==> FingerprintOf(setup, t.waitingRequest.value) !in s.turns)
  {
    var draw := Consume(s.budget, setup.limits, StepCounters(s));
    StepDrawKeepsChain(s.budget, setup.limits, s.replanRequested);
    if draw.Returned? && Decide(setup, s, draw.value, env).Returned? {
      DecideKeepsChain(setup, s, draw.value, env);
    }
  }

  lemma GuardAsksTheSame(setup: Setup, s: State, env: Env)
    ensures var t := Guard(setup, s, env).state;
            && t.turns == s.turns && t.waitingRequest == s.waitingRequest
            && (s.error.Some? ==> t.error.Some?)
  {
  }

  lemma GuardAsksOnlyClarify(setup: Setup, s: State, env: Env)
    requires Ready(setup, GuardDecision, s) && Asks(Landed(GuardDecision, Guard(setup, s, env).state))
    ensures Asks(At(GuardDecision, s))
  {
    var t := Guard(setup, s, env).state;
    if s.error.None? {
      GuardPermits(setup, s, s.plannerDecision.value);
    }
  }

  lemma EvaluationNeverAsks(setup: Setup, s: State, env: Env)
    requires Ready(setup, EvaluateProgress, s)
    ensures !Asks(Landed(EvaluateProgress, Evaluate(setup, s, env).state))
            && Evaluate(setup, s, env).state.turns == s.turns
  {
    hide Consume, EnsureNodeEntry, ProgressDecision;
    NoModelCallNeeded(s.plan.value, setup.authority, setup.runId, s.observations, s.artifacts, s.evidence);
    var d := ProgressDecision(s.plan.value, setup.authority, setup.runId, s.observations, s.artifacts,
        s.evidence).value;
    assert !d.kind.AskUser?;
    if Blocked(s, env).Some? {
      FailedRoute(EvaluateProgress);
    } else if env.evaluationInterrupted.Some? {
      FailedRoute(EvaluateProgress);
    } else {
      EvaluatedLands(s, d);
    }
  }

  lemma RequestAnswersOnce(setup: Setup, s: State, env: Env, resume: Option<ResumeValue>)
    requires Ready(setup, RequestInput, s) && Distinct(s.turns)
             && FingerprintOf(setup, s.waitingRequest.value) !in s.turns
    ensures var t := Request(setup, s, env, resume);
            t.Finished? ==> Distinct(t.state.turns) && !Asks(Landed(RequestInput, t.state))
  {
  }

  lemma OthersKeepTurns(setup: Setup, node: Node, s: State, env: Env, resume: Option<ResumeValue>)
    requires Ready(setup, node, s) && RunNode(setup, node, s, env, resume).Finished?
    requires node !in {PlanOrReplan, GuardDecision, EvaluateProgress, RequestInput}
    ensures RunNode(setup, node, s, env, resume).state.turns == s.turns
  {
    match node
    case ObserveResult => ObserveKeepsTurns(s, env);
    case ExecuteTool => ExecuteKeepsTurns(setup, s, env);
    case SynthesizeAnswer => SynthesizeKeepsTurns(setup, s, env);
    case _ =>
  }

  lemma ObserveKeepsTurns(s: State, env: Env)
    ensures Observe(s, env).Finished? ==> Observe(s, env).state.turns == s.turns
  {
  }

  lemma ExecuteKeepsTurns(setup: Setup, s: State, env: Env)
    ensures Execute(setup, s, env).state.turns == s.turns
  {
  }

  lemma SynthesizeKeepsTurns(setup: Setup, s: State, env: Env)
    ensures Synthesize(setup, s, env).state.turns == s.turns
  {
  }

  lemma MoveAsksAnew(setup: Setup, c: Config, m: Move)
    requires Fits(setup, c) && EnvValid(m.env) && NoQuestionTwice(setup, c) && Enabled(c, m)
             && TurnOf(setup, c, m).Finished?
    ensures NoQuestionTwice(setup, Landed(NodeOf(c), TurnOf(setup, c, m).state))
  {
    hide Initialize, Load, Plan, Guard, Execute, Observe, Evaluate, Request, Synthesize, Validate, Persist, Finalize,
         FailRun;
    var node, s, t := NodeOf(c), c.state, TurnOf(setup, c, m).state;
    LandedIs(node, t);
    AsksComesFrom(node, t);
    if node.PlanOrReplan? {
      PlanAsksAnew(setup, s, m.env);
    } else if node.GuardDecision? {
      GuardAsksTheSame(setup, s, m.env);
      if Asks(Landed(node, t)) {
        GuardAsksOnlyClarify(setup, s, m.env);
      }
    } else if node.EvaluateProgress? {
      EvaluationNeverAsks(setup, s, m.env);
    } else if node.RequestInput? {
      RequestAnswersOnce(setup, s, m.env, if m.Resume? then Some(m.value) else None);
    } else {
      OthersKeepTurns(setup, node, s, m.env, None);
    }
  }

  /** Over a whole run, with any number of clarifications, no question is answered and asked again. */
  lemma {:induction false} NeverAsksTwice(setup: Setup, moves: seq<Move>)
    requires MovesValid(moves)
    ensures NoQuestionTwice(setup, Reach(setup, moves))
  {
    if moves != [] {
      var init, m := moves[..|moves| - 1], moves[|moves| - 1];
      assert m in moves && forall x | x in init :: x in moves;
      NeverAsksTwice(setup, init);
      ReachFits(setup, init);
      assert moves == init + [m];
      Snoc(setup, init, m);
      StepAsksAnew(setup, Reach(setup, init), m);
    }
  }

  lemma StepAsksAnew(setup: Setup, c: Config, m: Move)
    requires Fits(setup, c) && EnvValid(m.env) && NoQuestionTwice(setup, c)
    ensures NoQuestionTwice(setup, Next(setup, c, m))
  {
    if Enabled(c, m) {
      if TurnOf(setup, c, m).Finished? {
        MoveAsksAnew(setup, c, m);
      } else {
        MoveOk(setup, c, m);
      }
    }
  }
}
