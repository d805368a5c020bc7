/**
 * The story a run of the analysis graph tells: which payload may come directly after which, and that
 * the step announced as started is the one whose outcome is recorded.
 */
module RunStory {
  import opened Outcomes
  import opened AgentModels
  import opened AgentEvaluator
  import opened AgentGuard
  import opened AgentRouting
  import opened AnalysisGraph
  import opened PlanGraph
  import opened RunRecord
  import opened RunSafety

  /** The plan shows the step as running, worded as announced, with everything it depends on completed or skipped. */
  predicate ShowsStarted(plan: AnalysisPlan, stepId: string, objective: string) {
    exists i | 0 <= i < |plan.steps| ::
      && plan.steps[i].stepId == stepId && plan.steps[i].status.StepRunning? && plan.steps[i].objective == objective
      && forall d | d in plan.steps[i].dependsOn :: d in DoneIds(plan.steps)
  }

  /** What may be emitted after `last`. A tool runs for a step just started, and its outcome is recorded next. */
  predicate MayTell(last: Option<EventData>, d: EventData) {
    match d
    case RunStarted => last.None?
    case ContextResolved => last == Some(RunStarted)
    case PlanUpdated(_) =>
      last.Some? && (last.value.ContextResolved? || last.value.ObservationRecorded? || last.value.RunResumed?
          || last.value.PlanUpdated?)
    case StepStarted(id, objective) => last.Some? && last.value.PlanUpdated?
        && ShowsStarted(last.value.plan, id, objective)
    case ToolStarted(_, _, _) => last.Some? && last.value.StepStarted?
    case ToolCompleted(call, action, _, _, _) =>
      last.Some? && last.value.ToolStarted? && last.value.callId == call && last.value.actionId == action
    case ObservationRecorded(_, action, _, artifactIds, evidenceIds) =>
      && last.Some? && last.value.ToolCompleted? && last.value.actionId == action
      && artifactIds == ArtifactIds(last.value.artifacts) && evidenceIds == EvidenceIds(last.value.evidence)
    case RunResumed(_) => last.Some? && last.value.PlanUpdated?
    case AnswerSynthesizing(_) => last.Some? && (last.value.PlanUpdated? || last.value.ObservationRecorded?)
    case RunCompleted => last.Some? && last.value.AnswerSynthesizing?
    case RunFailed(_) => true
    case RunWaiting(_) => false
    case Progress => false
  }

  function LastOf(said: seq<EventData>): Option<EventData> {
    if said == [] then None else Some(said[|said| - 1])
  }

  predicate TellsAt(said: seq<EventData>, i: nat)
    requires i < |said|
  {
    MayTell(LastOf(said[..i]), said[i])
  }

  /** Every payload may follow the one before it. */
  ghost predicate Story(said: seq<EventData>) {
    forall i: nat | i < |said| :: TellsAt(said, i)
  }

  lemma StorySnoc(said: seq<EventData>, d: EventData)
    requires Story(said) && MayTell(LastOf(said), d)
    ensures Story(said + [d])
  {
    hide MayTell, LastOf;
    var longer := said + [d];
    forall i: nat | i < |longer| ensures TellsAt(longer, i) {
      if i < |said| {
        assert TellsAt(said, i) && longer[..i] == said[..i];
      } else {
        assert longer[..i] == said;
      }
    }
  }

  // ---- where the story stands at each point of the graph ----

  predicate StartedFor(last: Option<EventData>, s: State) {
    && last.Some? && last.value.StepStarted? && s.pendingAction.Some? && s.pendingAction.value.actionId in s.actionSteps
    && last.value.stepId == s.actionSteps[s.pendingAction.value.actionId]
  }

  /** The observation that waits to be recorded is the one announced, for the step that was started. */
  predicate CompletedFor(said: seq<EventData>, s: State) {
    && |said| >= 3 && s.pendingObservation.Some? && s.pendingObservation.value.actionId in s.actionSteps
    && var o := s.pendingObservation.value;
    && said[|said| - 1].ToolCompleted? && said[|said| - 1].actionId == o.actionId
       && said[|said| - 1].succeeded == o.succeeded
    && said[|said| - 1].artifacts == o.artifactRefs && said[|said| - 1].evidence == o.evidenceRefs
    && said[|said| - 2].ToolStarted? && said[|said| - 2].toolName == o.toolName
    && said[|said| - 3].StepStarted? && said[|said| - 3].stepId == s.actionSteps[o.actionId]
  }

  predicate ToldAt(node: Node, s: State, said: seq<EventData>) {
    var last := LastOf(said);
    match node
    case InitializeRun => said == []
    case LoadContext => last == Some(RunStarted)
    case PlanOrReplan => last.Some? && (last.value.ContextResolved? || last.value.ObservationRecorded?
        || last.value.RunResumed?)
    case GuardDecision =>
      && s.plannerDecision.Some?
      && if s.plannerDecision.value.kind.Act? then StartedFor(last, s) else last.Some? && last.value.PlanUpdated?
    case ExecuteTool => StartedFor(last, s)
    case ObserveResult => CompletedFor(said, s)
    case EvaluateProgress => last.Some? && last.value.ObservationRecorded?
    case RequestInput => last.Some? && last.value.PlanUpdated?
    case SynthesizeAnswer => last.Some? && (last.value.PlanUpdated? || last.value.ObservationRecorded?)
    case Fail => true
    case _ => last.Some? && last.value.AnswerSynthesizing?
  }

  predicate Told(c: Config, said: seq<EventData>) {
    match c
    case At(node, s) =>
      if s.error.None? then ToldAt(node, s, said)
      else node.PlanOrReplan? ==> LastOf(said).Some? && LastOf(said).value.PlanUpdated?
    case Paused(_) => LastOf(said).Some? && LastOf(said).value.PlanUpdated?
    case Ended(_) => true
    case Crashed(_) => true
  }

  /** The turn goes on with the story, and leaves it where the next node expects it. */
  ghost predicate GoesOn(c: Config, t: Turn, said: seq<EventData>)
    requires c.At? || c.Paused?
  {
    match t
    case Finished(_, payloads) => Story(said + payloads) && Told(After(c, t), said + payloads)
    case Pause(_) => Told(Paused(c.state), said)
    case Crash(payloads) => Story(said + payloads)
  }

  // A failure says nothing and goes to `fail`.
  lemma FailureGoesOn(node: Node, s: State, error: AgentError, said: seq<EventData>)
    requires Story(said) && !node.InitializeRun? && !node.PlanOrReplan? && !node.RequestInput? && !node.Fail?
    ensures GoesOn(At(node, s), Failed(s, error, []), said)
  {
    FailedRoute(node);
    assert said + [] == said;
  }

  lemma OnePayload(said: seq<EventData>, d: EventData)
    requires Story(said) && MayTell(LastOf(said), d)
    ensures Story(said + [d]) && LastOf(said + [d]) == Some(d)
  {
    hide MayTell;
    StorySnoc(said, d);
  }

  lemma InitializeGoesOn(setup: Setup, env: Env)
    ensures GoesOn(At(InitializeRun, INITIAL), Initialize(setup, INITIAL, env), [])
  {
    var t := Initialize(setup, INITIAL, env);
    if t.payloads == [RunStarted] {
      OnePayload([], RunStarted);
      assert [] + [RunStarted] == [RunStarted];
    } else {
      FailedRoute(InitializeRun);
    }
  }

  lemma LoadGoesOn(s: State, env: Env, said: seq<EventData>)
    requires Story(said) && s.error.None? && ToldAt(LoadContext, s, said)
    ensures GoesOn(At(LoadContext, s), Load(s, env), said)
  {
    hide Story;
    if Blocked(s, env).Some? {
      FailureGoesOn(LoadContext, s, Coded(Blocked(s, env).value), said);
    } else if env.loaded.Raised? {
      FailureGoesOn(LoadContext, s, env.loaded.error, said);
    } else {
      OnePayload(said, ContextResolved);
    }
  }

  // What a runnable step waits for stays done when that step alone changes.
  lemma StartShows(before: AnalysisPlan, after: AnalysisPlan, k: nat)
    requires Distinct(StepIds(before.steps)) && k < |before.steps| && Runnable(before.steps, before.steps[k])
    requires |after.steps| == |before.steps|
    requires forall i | 0 <= i < |before.steps| ::
               after.steps[i] == if before.steps[i].stepId == before.steps[k].stepId
                   then before.steps[i].(status := StepRunning)
                                 else before.steps[i]
    ensures ShowsStarted(after, before.steps[k].stepId, before.steps[k].objective)
  {
    forall d | d in after.steps[k].dependsOn ensures d in DoneIds(after.steps) {
      var s :| s in before.steps && IsDone(s) && s.stepId == d;
      var i :| 0 <= i < |before.steps| && before.steps[i] == s;
      assert StepIds(before.steps)[i] == d && StepIds(before.steps)[k] == before.steps[k].stepId && i != k;
      assert after.steps[i] in after.steps;
    }
  }

  lemma PlannedGoesOn(s: State, d: PlannerDecision, budget: BudgetState, started: Option<nat>, said: seq<EventData>)
    requires Story(said) && LastOf(said).Some?
    requires var last := LastOf(said).value;
             last.ContextResolved? || last.ObservationRecorded? || last.RunResumed? || last.PlanUpdated?
    requires (started.Some? <==> d.kind.Act?)
             && (started.Some? ==> d.nextAction.Some? && started == FirstRunnable(d.plan.steps))
    requires Distinct(StepIds(d.plan.steps))
    ensures GoesOn(At(PlanOrReplan, s), Planned(s, d, budget, started), said)
  {
    hide Story;
    var t := Planned(s, d, budget, started);
    var update := t.payloads[0];
    OnePayload(said, update);
    if started.None? {
      assert t.payloads == [update];
    } else {
      assert t.payloads == [update, t.payloads[1]];
      var k := started.value;
      StartShows(d.plan, t.state.plan.value, k);
      OnePayload(said + [update], t.payloads[1]);
      assert said + t.payloads == said + [update] + [t.payloads[1]];
    }
  }

  lemma PlanGoesOn(setup: Setup, s: State, env: Env, said: seq<EventData>)
    requires Ready(setup, PlanOrReplan, s) && EnvValid(env) && Story(said) && Told(At(PlanOrReplan, s), said)
    ensures GoesOn(At(PlanOrReplan, s), Plan(setup, s, env), said)
  {
    hide Story;
    var t := Plan(setup, s, env);
    if t.payloads == [] {
      PlanFailureIsFree(setup, s, env);
      PlanFailureSets(setup, s, env);
      assert said + [] == said;
    } else {
      StepDrawKeepsChain(s.budget, setup.limits, s.replanRequested);
      var budget := Consume(s.budget, setup.limits, StepCounters(s)).value;
      DecideKeepsChain(setup, s, budget, env);
      var choice := Decide(setup, s, budget, env).value;
      var started := if choice.decision.kind.Act? then FirstRunnable(choice.decision.plan.steps) else None;
      assert t == Planned(s, choice.decision, choice.budget, started);
      PlannedGoesOn(s, choice.decision, choice.budget, started, said);
    }
  }

  lemma PlanFailureSets(setup: Setup, s: State, env: Env)
    requires Plan(setup, s, env).payloads == []
    ensures Plan(setup, s, env).Finished? && Plan(setup, s, env).state.error.Some?
  {
  }

  lemma GuardGoesOn(setup: Setup, s: State, env: Env, said: seq<EventData>)
    requires Ready(setup, GuardDecision, s) && Story(said) && Told(At(GuardDecision, s), said)
    ensures GoesOn(At(GuardDecision, s), Guard(setup, s, env), said)
  {
    hide Story;
    var t := Guard(setup, s, env);
    assert t.payloads == [] && said + [] == said;
    if s.error.Some? || t.state.error.Some? {
      GuardFailureLands(setup, s, env);
    } else {
      GuardPermits(setup, s, s.plannerDecision.value);
      GuardSuccessLands(setup, s, env);
    }
  }

  lemma GuardFailureLands(setup: Setup, s: State, env: Env)
    requires Guard(setup, s, env).state.error.Some?
    ensures Landed(GuardDecision, Guard(setup, s, env).state) == At(Fail, Guard(setup, s, env).state)
  {
    FailedRoute(GuardDecision);
  }

  lemma GuardSuccessLands(setup: Setup, s: State, env: Env)
    requires Ready(setup, GuardDecision, s) && Guard(setup, s, env).state.error.None?
    ensures var t := Guard(setup, s, env).state;
            && t == s.(nextRoute := t.nextRoute) && Landed(GuardDecision, t).At?
            && match s.plannerDecision.value.kind
               case Act => Landed(GuardDecision, t).node.ExecuteTool?
               case Clarify => Landed(GuardDecision, t).node.RequestInput?
               case Finish => Landed(GuardDecision, t).node.SynthesizeAnswer?
               case GiveUp => false
  {
  }

  lemma ExecuteGoesOn(setup: Setup, s: State, env: Env, said: seq<EventData>)
    requires Ready(setup, ExecuteTool, s) && Story(said) && ToldAt(ExecuteTool, s, said)
    ensures GoesOn(At(ExecuteTool, s), Execute(setup, s, env), said)
  {
    hide Story;
    var t := Execute(setup, s, env);
    ExecuteSays(setup, s, env);
    FailedRoute(ExecuteTool);
    if t.payloads == [] {
      assert said + [] == said;
    } else {
      OnePayload(said, t.payloads[0]);
      if |t.payloads| == 2 {
        OnePayload(said + [t.payloads[0]], t.payloads[1]);
        assert said + t.payloads == said + [t.payloads[0]] + [t.payloads[1]];
      } else {
        assert t.payloads == [t.payloads[0]];
      }
    }
  }

  // A tool is announced, and its completion only with a matching observation.
  lemma ExecuteSays(setup: Setup, s: State, env: Env)
    requires s.pendingAction.Some? && s.error.None?
    ensures var t := Execute(setup, s, env);
            && t.Finished? && |t.payloads| <= 2 && t.state.actionSteps == s.actionSteps
            && (t.payloads != [] ==>
                  && t.payloads[0].ToolStarted? && t.payloads[0].actionId == s.pendingAction.value.actionId
                  && t.payloads[0].toolName == s.pendingAction.value.toolName)
            && (t.state.error.Some? ==> |t.payloads| < 2 && t.state.nextRoute == Some(Fail))
            && (t.state.error.None? ==>
                  && |t.payloads| == 2 && t.state.nextRoute == Some(ObserveResult) && t.state.pendingObservation.Some?
                  && var o := t.state.pendingObservation.value;
                  && o.actionId == s.pendingAction.value.actionId && o.toolName == s.pendingAction.value.toolName
                  && t.payloads[1] == ToolCompleted(t.payloads[0].callId, o.actionId, o.succeeded, o.artifactRefs,
                     o.evidenceRefs))
  {
  }

  lemma ObserveGoesOn(s: State, env: Env, said: seq<EventData>)
    requires s.error.None? && s.plan.Some? && Story(said) && ToldAt(ObserveResult, s, said)
    ensures GoesOn(At(ObserveResult, s), Observe(s, env), said)
  {
    hide Story;
    if Blocked(s, env).Some? {
      FailureGoesOn(ObserveResult, s, Coded(Blocked(s, env).value), said);
    } else {
      var t := Observe(s, env);
      var o := s.pendingObservation.value;
      var recorded := ObservationRecorded(o.observationId, o.actionId, o.summary, ArtifactIds(o.artifactRefs),
          EvidenceIds(o.evidenceRefs));
      assert t.payloads == [recorded];
      OnePayload(said, recorded);
    }
  }

  lemma EvaluateGoesOn(setup: Setup, s: State, env: Env, said: seq<EventData>)
    requires Ready(setup, EvaluateProgress, s) && Story(said) && ToldAt(EvaluateProgress, s, said)
    ensures GoesOn(At(EvaluateProgress, s), Evaluate(setup, s, env), said)
  {
    hide Story, Evaluate;
    EvaluationNeverAsks(setup, s, env);
    EvaluateSays(setup, s, env);
    var t := Evaluate(setup, s, env);
    assert said + [] == said;
    EvaluationLandsOn(t.state);
  }

  lemma EvaluateSays(setup: Setup, s: State, env: Env)
    requires s.error.None?
    ensures Evaluate(setup, s, env).Finished? && Evaluate(setup, s, env).payloads == []
    ensures Evaluate(setup, s, env).state.error.Some? ==> Evaluate(setup, s, env).state.nextRoute == Some(Fail)
  {
    hide ProgressDecision, Consume;
  }

  lemma EvaluationLandsOn(s: State)
    ensures var c := Landed(EvaluateProgress, s);
            c.Crashed? || (c.At? && c.node in {PlanOrReplan, RequestInput, SynthesizeAnswer, Fail})
    ensures s.error.Some? && s.nextRoute == Some(Fail) ==> Landed(EvaluateProgress, s) == At(Fail, s)
  {
  }

  lemma RequestGoesOn(setup: Setup, c: Config, env: Env, resume: Option<ResumeValue>, said: seq<EventData>)
    requires c.Paused? || (c.At? && c.node.RequestInput?)
    requires Ready(setup, RequestInput, c.state) && Story(said) && LastOf(said).Some? && LastOf(said).value.PlanUpdated?
    ensures GoesOn(c, Request(setup, c.state, env, resume), said)
  {
    hide Story;
    var t := Request(setup, c.state, env, resume);
    if t.Finished? {
      if t.payloads == [] {
        assert said + [] == said;
      } else {
        assert t.payloads == [t.payloads[0]];
        OnePayload(said, t.payloads[0]);
      }
    }
  }

  lemma SynthesizeGoesOn(setup: Setup, s: State, env: Env, said: seq<EventData>)
    requires s.error.None? && Story(said) && ToldAt(SynthesizeAnswer, s, said)
    ensures GoesOn(At(SynthesizeAnswer, s), Synthesize(setup, s, env), said)
  {
    hide Story;
    FailedRoute(SynthesizeAnswer);
    SynthesizeSays(setup, s, env);
    var t := Synthesize(setup, s, env);
    if t.payloads == [] {
      assert said + [] == said;
    } else {
      assert t.payloads == [t.payloads[0]];
      OnePayload(said, t.payloads[0]);
    }
  }

  lemma SynthesizeSays(setup: Setup, s: State, env: Env)
    requires s.error.None?
    ensures var t := Synthesize(setup, s, env);
            && t.Finished? && |t.payloads| <= 1 && (t.payloads != [] ==> t.payloads[0].AnswerSynthesizing?)
            && (t.state.error.Some? ==> t.state.nextRoute == Some(Fail))
            && (t.state.error.None? ==> |t.payloads| == 1 && t.state.nextRoute == Some(ValidateAnswer))
  {
    hide Consume, EvidenceIds;
  }

  lemma LateGoesOn(s: State, env: Env, said: seq<EventData>)
    requires s.error.None? && Story(said) && LastOf(said).Some? && LastOf(said).value.AnswerSynthesizing?
    ensures GoesOn(At(ValidateAnswer, s), Validate(s, env), said)
    ensures GoesOn(At(PersistTurn, s), Persist(s, env), said)
  {
    hide Story;
    FailedRoute(ValidateAnswer);
    FailedRoute(PersistTurn);
    assert said + [] == said;
  }

  lemma FinalizeGoesOn(s: State, env: Env, said: seq<EventData>)
    requires s.error.None? && Story(said) && LastOf(said).Some? && LastOf(said).value.AnswerSynthesizing?
    ensures GoesOn(At(FinalizeRun, s), Finalize(s, env), said)
  {
    hide Story;
    FailedRoute(FinalizeRun);
    if Blocked(s, env).Some? {
      assert said + [] == said;
    } else {
      OnePayload(said, RunCompleted);
    }
  }

  lemma FailGoesOn(s: State, said: seq<EventData>)
    requires Story(said)
    ensures GoesOn(At(Fail, s), FailRun(s), said)
  {
    hide Story;
    var t := FailRun(s);
    assert t.payloads == [t.payloads[0]];
    OnePayload(said, t.payloads[0]);
  }

  lemma TurnGoesOn(setup: Setup, c: Config, m: Move, said: seq<EventData>)
    requires Fits(setup, c) && EnvValid(m.env) && Enabled(c, m) && Story(said) && Told(c, said)
    ensures GoesOn(c, TurnOf(setup, c, m), said)
  {
    hide Story, GoesOn, LastOf, Initialize, Load, Plan, Guard, Execute, Observe, Evaluate, Request, Synthesize,
         Validate, Persist, Finalize, FailRun;
    var s, env := c.state, m.env;
    match NodeOf(c)
    case InitializeRun => InitializeGoesOn(setup, env);
    case LoadContext => LoadGoesOn(s, env, said);
    case PlanOrReplan => PlanGoesOn(setup, s, env, said);
    case GuardDecision => GuardGoesOn(setup, s, env, said);
    case ExecuteTool => ExecuteGoesOn(setup, s, env, said);
    case ObserveResult => ObserveGoesOn(s, env, said);
    case EvaluateProgress => EvaluateGoesOn(setup, s, env, said);
    case RequestInput => RequestGoesOn(setup, c, env, if m.Resume? then Some(m.value) else None, said);
    case SynthesizeAnswer => SynthesizeGoesOn(setup, s, env, said);
    case ValidateAnswer => LateGoesOn(s, env, said);
    case PersistTurn => LateGoesOn(s, env, said);
    case FinalizeRun => FinalizeGoesOn(s, env, said);
    case Fail => FailGoesOn(s, said);
  }

  lemma MoveGoesOn(setup: Setup, c: Config, m: Move, said: seq<EventData>)
    requires Fits(setup, c) && EnvValid(m.env) && Story(said) && Told(c, said)
    ensures Story(said + SaidBy(setup, c, m)) && Told(Next(setup, c, m), said + SaidBy(setup, c, m))
  {
    hide Story, RunNode, Fits;
    if Enabled(c, m) {
      TurnGoesOn(setup, c, m, said);
      if TurnOf(setup, c, m).Pause? {
        assert said + [] == said;
      }
    } else {
      assert said + [] == said;
    }
  }

  /**
   * Every run tells a well-ordered story: a tool starts only for a step just announced as running, it
   * completes under its own call id, its observation is recorded next with exactly its artifacts and
   * evidence, and an answer is begun before the run completes.
   */
  lemma {:induction false} RunTellsAStory(setup: Setup, moves: seq<Move>)
    requires MovesValid(moves)
    ensures Story(Said(setup, moves)) && Told(Reach(setup, moves), Said(setup, moves))
  {
    if moves != [] {
      hide Next, SaidBy, Story, Told, Fits;
      var init, m := moves[..|moves| - 1], moves[|moves| - 1];
      assert m in moves && forall x | x in init :: x in moves;
      RunTellsAStory(setup, init);
      ReachFits(setup, init);
      MoveGoesOn(setup, Reach(setup, init), m, Said(setup, init));
    }
  }

  /**
   * What an observation settles is the step that was announced before its tool: completed if the tool
   * succeeded, else blocked.
   */
  lemma OutcomeBelongsToItsStep(setup: Setup, moves: seq<Move>, m: Move, i: nat)
    requires MovesValid(moves) && EnvValid(m.env) && m.Advance?
    requires Reach(setup, moves).At? && Reach(setup, moves).node.ObserveResult?
    requires TurnOf(setup, Reach(setup, moves), m).Finished? && TurnOf(setup, Reach(setup, moves), m).state.error.None?
    ensures var s := Reach(setup, moves).state;
            var said := Said(setup, moves);
            var after := Next(setup, Reach(setup, moves), m).state;
            && s.plan.Some? && after.plan.Some? && |after.plan.value.steps| == |s.plan.value.steps|
            && |said| >= 3 && said[|said| - 3].StepStarted? && said[|said| - 1].ToolCompleted?
            && (i < |s.plan.value.steps| ==>
                  after.plan.value.steps[i] ==
                    if s.plan.value.steps[i].stepId == said[|said| - 3].stepId
                    then s.plan.value.steps[i].(status := if said[|said| - 1].succeeded then StepCompleted
                        else StepBlocked)
                    else s.plan.value.steps[i])
  {
    hide Reach, Said, Story;
    RunTellsAStory(setup, moves);
    ReachFits(setup, moves);
    OutcomeStep(setup, Reach(setup, moves).state, m, Said(setup, moves), i);
  }

  lemma OutcomeStep(setup: Setup, s: State, m: Move, said: seq<EventData>, i: nat)
    requires Ready(setup, ObserveResult, s) && m.Advance? && CompletedFor(said, s)
    requires Observe(s, m.env).Finished? && Observe(s, m.env).state.error.None?
    ensures var after := Next(setup, At(ObserveResult, s), m).state;
            && after.plan.Some? && |after.plan.value.steps| == |s.plan.value.steps|
            && (i < |s.plan.value.steps| ==>
                  after.plan.value.steps[i] ==
                    if s.plan.value.steps[i].stepId == said[|said| - 3].stepId
                    then s.plan.value.steps[i].(status := if said[|said| - 1].succeeded then StepCompleted
                        else StepBlocked)
                    else s.plan.value.steps[i])
  {
    LandedIs(ObserveResult, Observe(s, m.env).state);
  }

  // ---- replans ----

  /** A verdict of the evaluation that sends the run back to plan anew. */
  function ReplanAsked(setup: Setup, c: Config, m: Move): nat {
    if Enabled(c, m) && NodeOf(c).EvaluateProgress? && TurnOf(setup, c, m).Finished?
       && TurnOf(setup, c, m).state.error.None? && TurnOf(setup, c, m).state.replanRequested then 1 else 0
  }

  function ReplansAsked(setup: Setup, moves: seq<Move>): nat {
    if moves == [] then 0
    else ReplansAsked(setup, moves[..|moves| - 1]) + ReplanAsked(setup, Reach(setup, moves[..|moves| - 1]),
        moves[|moves| - 1])
  }

  /** Charged or still owed, replans are the clarifications answered and the replan verdicts given. */
  predicate Owes(c: Config, asked: nat) {
    && c.state.budget.replans + (if c.state.replanRequested then 1 else 0) == |c.state.turns| + asked
    && (c.state.replanRequested ==> c.state.error.Some? || (c.At? && c.node.PlanOrReplan?))
  }

  lemma PlanPaysReplan(setup: Setup, s: State, env: Env, asked: nat)
    requires Ready(setup, PlanOrReplan, s) && EnvValid(env) && Owes(At(PlanOrReplan, s), asked)
    ensures Owes(Landed(PlanOrReplan, Plan(setup, s, env).state), asked)
  {
    var t := Plan(setup, s, env);
    if t.payloads == [] {
      PlanFailureIsFree(setup, s, env);
      PlanFailureSets(setup, s, env);
      PlanFailureOwes(setup, s, env);
    } else {
      StepDrawKeepsChain(s.budget, setup.limits, s.replanRequested);
      var budget := Consume(s.budget, setup.limits, StepCounters(s)).value;
      DecideKeepsChain(setup, s, budget, env);
      var choice := Decide(setup, s, budget, env).value;
      var started := if choice.decision.kind.Act? then FirstRunnable(choice.decision.plan.steps) else None;
      assert t == Planned(s, choice.decision, choice.budget, started);
    }
  }

  lemma PlanFailureOwes(setup: Setup, s: State, env: Env)
    requires Plan(setup, s, env).payloads == []
    ensures Plan(setup, s, env).state.budget == s.budget
            && Plan(setup, s, env).state.replanRequested == s.replanRequested
    ensures Plan(setup, s, env).state.turns == s.turns
  {
  }

  lemma ExecuteOwes(setup: Setup, s: State, env: Env)
    requires Ready(setup, ExecuteTool, s)
    ensures var t := Execute(setup, s, env).state;
            t.budget.replans == s.budget.replans && t.replanRequested == s.replanRequested && t.turns == s.turns
  {
    if Consume(s.budget, setup.limits, CountersOf(s.pendingAction.value.toolName)).Returned? {
      ToolDrawKeepsChain(s.budget, setup.limits, s.pendingAction.value.toolName);
    }
  }

  lemma SynthesizeOwes(setup: Setup, s: State, env: Env)
    requires BudgetChain(s.budget, setup.limits)
    ensures var t := Synthesize(setup, s, env).state;
            t.budget.replans == s.budget.replans && t.replanRequested == s.replanRequested && t.turns == s.turns
  {
    hide Consume, EvidenceIds, Distinct;
    ModelDrawKeepsChain(s.budget, setup.limits);
  }

  lemma EvaluateOwes(setup: Setup, s: State, env: Env, asked: nat)
    requires Ready(setup, EvaluateProgress, s) && Owes(At(EvaluateProgress, s), asked)
    ensures var t := Evaluate(setup, s, env).state;
            Owes(Landed(EvaluateProgress, t), asked + if t.error.None? && t.replanRequested then 1 else 0)
  {
    hide ProgressDecision;
    NoModelCallNeeded(s.plan.value, setup.authority, setup.runId, s.observations, s.artifacts, s.evidence);
    var d := ProgressDecision(s.plan.value, setup.authority, setup.runId, s.observations, s.artifacts,
        s.evidence).value;
    EvaluatedLands(s, d);
  }

  predicate OwesTheSame(s: State, t: State) {
    && t.budget.replans == s.budget.replans && t.replanRequested == s.replanRequested && t.turns == s.turns
    && (s.error.Some? ==> t.error.Some?)
  }

  lemma EarlyOwe(setup: Setup, s: State, env: Env)
    ensures OwesTheSame(INITIAL, Initialize(setup, INITIAL, env).state)
    ensures OwesTheSame(s, Load(s, env).state)
    ensures OwesTheSame(s, Guard(setup, s, env).state)
  {
    hide GuardPlannerDecision, EnsureNodeEntry;
  }

  lemma ObserveOwes(s: State, env: Env)
    ensures Observe(s, env).Finished? ==> OwesTheSame(s, Observe(s, env).state)
  {
    hide EnsureNodeEntry;
  }

  lemma LateOwe(s: State, env: Env)
    ensures OwesTheSame(s, Validate(s, env).state)
    ensures OwesTheSame(s, Persist(s, env).state)
    ensures OwesTheSame(s, Finalize(s, env).state)
    ensures OwesTheSame(s, FailRun(s).state)
  {
    hide EnsureNodeEntry, Respond, BlockRunning;
  }

  lemma OthersOwe(setup: Setup, node: Node, s: State, env: Env)
    requires node in {InitializeRun, LoadContext, GuardDecision, ObserveResult, ValidateAnswer, PersistTurn,
             FinalizeRun, Fail}
    requires node.InitializeRun? ==> s == INITIAL
    requires RunNode(setup, node, s, env, None).Finished?
    ensures OwesTheSame(s, RunNode(setup, node, s, env, None).state)
  {
    hide Initialize, Load, Guard, Observe, Validate, Persist, Finalize, FailRun;
    EarlyOwe(setup, s, env);
    ObserveOwes(s, env);
    LateOwe(s, env);
  }

  lemma RequestOwes(setup: Setup, s: State, env: Env, resume: Option<ResumeValue>, asked: nat)
    requires Ready(setup, RequestInput, s) && Owes(Paused(s), asked) && Request(setup, s, env, resume).Finished?
    ensures Owes(Landed(RequestInput, Request(setup, s, env, resume).state), asked)
  {
  }

  lemma TurnOwes(setup: Setup, c: Config, m: Move, asked: nat)
    requires Fits(setup, c) && EnvValid(m.env) && Enabled(c, m) && Owes(c, asked) && TurnOf(setup, c, m).Finished?
    ensures Owes(Landed(NodeOf(c), TurnOf(setup, c, m).state), asked + ReplanAsked(setup, c, m))
  {
    hide Initialize, Load, Plan, Guard, Execute, Observe, Evaluate, Request, Synthesize, Validate, Persist, Finalize,
         FailRun;
    var node, s := NodeOf(c), c.state;
    LandedIs(node, TurnOf(setup, c, m).state);
    if node.PlanOrReplan? {
      PlanPaysReplan(setup, s, m.env, asked);
    } else if node.ExecuteTool? {
      ExecuteOwes(setup, s, m.env);
    } else if node.SynthesizeAnswer? {
      SynthesizeOwes(setup, s, m.env);
    } else if node.EvaluateProgress? {
      EvaluateOwes(setup, s, m.env, asked);
    } else if node.RequestInput? {
      RequestOwes(setup, s, m.env, if m.Resume? then Some(m.value) else None, asked);
    } else {
      OthersOwe(setup, node, s, m.env);
    }
  }

  lemma MoveOwes(setup: Setup, c: Config, m: Move, asked: nat)
    requires Fits(setup, c) && EnvValid(m.env) && Owes(c, asked)
    ensures Owes(Next(setup, c, m), asked + ReplanAsked(setup, c, m))
  {
    hide RunNode;
    if Enabled(c, m) && TurnOf(setup, c, m).Finished? {
      TurnOwes(setup, c, m, asked);
    } else if Enabled(c, m) {
      MoveOk(setup, c, m);
    }
  }

  /** Every replan is asked for: by an answered clarification or a replan verdict, and each of those is charged once. */
  lemma {:induction false} ReplansAreAccounted(setup: Setup, moves: seq<Move>)
    requires MovesValid(moves)
    ensures Owes(Reach(setup, moves), ReplansAsked(setup, moves))
  {
    hide Next, Fits, ReplanAsked;
    if moves != [] {
      var init, m := moves[..|moves| - 1], moves[|moves| - 1];
      assert m in moves && forall x | x in init :: x in moves;
      ReplansAreAccounted(setup, init);
      ReachFits(setup, init);
      MoveOwes(setup, Reach(setup, init), m, ReplansAsked(setup, init));
    }
  }
}
