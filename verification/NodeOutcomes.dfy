/**
 * Why a node of the graph fails, if it does, and what it leaves when it does not: exactly, for every
 * reachable state and whatever the outside world answers.
 */
module NodeOutcomes {
  import opened Outcomes
  import opened AgentModels
  import opened AgentRouting
  import opened AgentGuard
  import opened AnalysisGraph
  import opened PlanGraph
  import opened RunSafety
  import Log = RunEventStore

  // ---- causes ----

  function ErrorIn<T>(r: Outcome<T, AgentError>): Option<AgentError> {
    if r.Raised? then Some(r.error) else None
  }

  /** The run was cancelled, or its time is up. */
  function StopCause(s: State, env: Env): Option<AgentError> {
    if env.cancelled then Some(Coded(CANCELLED))
    else if env.now >= s.budget.deadlineAt then Some(Coded(DEADLINE_EXCEEDED))
    else None
  }

  function StartCause(setup: Setup, env: Env): Option<AgentError> {
    if setup.requestMode == setup.authority.mode
       && (setup.requestPins.None? || setup.requestPins.value == setup.authority.pins) then
      if env.cancelled then Some(Coded(CANCELLED)) else None
    else Some(Coded(ACCESS_DENIED))
  }

  /** A question already answered is a loop; an act without an action or a step to start is invalid. */
  function DecisionCause(setup: Setup, s: State, d: PlannerDecision): Option<AgentError> {
    if d.clarification.Some? && FingerprintOf(setup, d.clarification.value) in s.turns then
      Some(Coded(AGENT_CLARIFICATION_LOOP))
    else if d.kind.Act? && FirstRunnable(d.plan.steps).None? then Some(Coded(AGENT_DECISION_INVALID))
    else None
  }

  function PlannerCause(setup: Setup, s: State, used: nat, env: Env): Option<AgentError> {
    if used >= setup.limits.maxModelCalls then Some(Coded(AGENT_BUDGET_EXCEEDED))
    else match env.planned
      case Raised(e) => Some(e)
      case Returned(d) => DecisionCause(setup, s, d)
  }

  /** Who decides is asked in turn, each asking a model only while a model call is left. */
  function AnswerCause(setup: Setup, s: State, env: Env): Option<AgentError> {
    var calls := if env.resolverCallsModel then 1 else 0;
    if setup.hasResolver && s.plan.None? then
      match env.initialDecision
      case Raised(e) => Some(e)
      case Returned(Some(d)) => DecisionCause(setup, s, d)
      case Returned(None) => PlannerCause(setup, s, s.budget.modelCalls, env)
    else if setup.hasResolver && (s.observations != [] || s.replanRequested) then
      if s.budget.modelCalls + calls > setup.limits.maxModelCalls then Some(Coded(AGENT_BUDGET_EXCEEDED))
      else match env.resolved
        case Raised(e) => Some(e)
        case Returned(Some(d)) => DecisionCause(setup, s, d)
        case Returned(None) => PlannerCause(setup, s, s.budget.modelCalls + calls, env)
    else PlannerCause(setup, s, s.budget.modelCalls, env)
  }

  function PlanCause(setup: Setup, s: State, env: Env): Option<AgentError> {
    if s.budget.agentSteps >= setup.limits.maxAgentSteps then Some(Coded(AGENT_MAX_STEPS_EXCEEDED))
    else if s.replanRequested && s.budget.replans >= setup.limits.maxReplans then Some(Coded(AGENT_BUDGET_EXCEEDED))
    else AnswerCause(setup, s, env)
  }

  function GuardCause(setup: Setup, s: State): Option<AgentError> {
    if s.plannerDecision.None? || s.plannerDecision.value.kind.GiveUp? then Some(Coded(AGENT_DECISION_INVALID))
    else if !s.plannerDecision.value.kind.Act? || s.pendingAction.None? then None
    else if !Governed(setup, s, s.pendingAction.value.toolName) then Some(Coded(AGENT_ACTION_NOT_ALLOWED))
    else if !setup.specs[s.pendingAction.value.toolName].accepts(s.pendingAction.value.arguments) then
      Some(Coded(AGENT_DECISION_INVALID))
    else None
  }

  predicate ToolFits(setup: Setup, s: State, toolName: string) {
    && s.budget.toolCalls < setup.limits.maxToolCalls
    && (toolName == "query.compile" ==> s.budget.queryCompiles < setup.limits.maxQueryCompiles)
    && (toolName == "query.preview" ==> s.budget.queryPreviews < setup.limits.maxQueryPreviews)
    && (toolName == "query.execute" ==> s.budget.queryExecutes < setup.limits.maxQueryExecutes)
  }

  /** A tool must have room in the budget, answer, and answer for the action it was called for. */
  function ToolCause(setup: Setup, s: State, env: Env): Option<AgentError> {
    if s.pendingAction.None? then Some(Coded(AGENT_ACTION_NOT_ALLOWED))
    else if !ToolFits(setup, s, s.pendingAction.value.toolName) then Some(Coded(AGENT_BUDGET_EXCEEDED))
    else match env.observed
      case Raised(e) => Some(e)
      case Returned(o) =>
        if o.actionId == s.pendingAction.value.actionId && o.toolName == s.pendingAction.value.toolName then None
        else Some(Coded(AGENT_ACTION_NOT_ALLOWED))
  }

  /** The trimmed message of an answer. */
  function Answer(v: ResumeValue): string {
    if v.ResumeText? then Log.Strip(v.text)
    else if v.ResumeFields? && "message" in v.keys then Log.Strip(v.message) else ""
  }

  /** An answer may not carry what only the server may set, and must say something of at most 4,000 characters. */
  function AnswerRefused(v: ResumeValue): Option<AgentError> {
    if v.ResumeFields? && ("authority" in v.keys || "tenant_id" in v.keys || "user_id" in v.keys
        || "source_id" in v.keys || "source_version" in v.keys || "binding_id" in v.keys
        || "binding_version" in v.keys) then Some(Coded(OTHER_ERROR("AGENT_RESUME_CONFLICT")))
    else if 1 <= |Answer(v)| <= 4000 then None
    else Some(Coded(AGENT_INTERRUPT_STALE))
  }

  function DraftCause(setup: Setup, s: State, env: Env): Option<AgentError> {
    if setup.authority.mode.PlanMode? && s.evidence == [] then None
    else if env.synthesisTimeLeft && s.budget.modelCalls >= setup.limits.maxModelCalls then
      Some(Coded(AGENT_BUDGET_EXCEEDED))
    else ErrorIn(env.drafted)
  }

  function GroundingCause(s: State, env: Env): Option<AgentError> {
    if s.draft.Some? && forall id | id in s.draft.value.evidenceIds :: exists e | e in s.evidence :: e.evidenceId == id
    then env.answerRejected
    else Some(Coded(AGENT_RESPONSE_UNGROUNDED))
  }

  /** The error a node leaves, if any, for all nodes but the evaluation, which has its own verdicts. */
  function Cause(setup: Setup, node: Node, s: State, env: Env, resume: Option<ResumeValue>): Option<AgentError>
    requires !node.EvaluateProgress? && !node.Fail?
  {
    if node.InitializeRun? then StartCause(setup, env)
    else if StopCause(s, env).Some? then StopCause(s, env)
    else match node
      case LoadContext => ErrorIn(env.loaded)
      case PlanOrReplan => PlanCause(setup, s, env)
      case GuardDecision => GuardCause(setup, s)
      case ExecuteTool => ToolCause(setup, s, env)
      case RequestInput => if resume.Some? then AnswerRefused(resume.value) else None
      case SynthesizeAnswer => DraftCause(setup, s, env)
      case ValidateAnswer => GroundingCause(s, env)
      case PersistTurn => env.persistFailed
      case _ => None
  }

  // ---- each node fails for its cause ----

  lemma StopIsBlocked(s: State, env: Env)
    requires !IsTerminalStatus(s.status)
    ensures Blocked(s, env) == match StopCause(s, env) case None => None case Some(e) => Some(e.code)
    ensures StopCause(s, env).Some? ==> StopCause(s, env).value == Coded(Blocked(s, env).value)
  {
  }

  lemma StartFails(setup: Setup, env: Env)
    ensures Initialize(setup, INITIAL, env).state.error == StartCause(setup, env)
  {
  }

  lemma LoadFails(setup: Setup, s: State, env: Env)
    requires !IsTerminalStatus(s.status) && s.error.None?
    ensures Load(s, env).state.error == Cause(setup, LoadContext, s, env, None)
  {
    StopIsBlocked(s, env);
    hide EnsureNodeEntry;
  }

  lemma OneDraw(b: BudgetState, limits: RunBudget, c: Counter)
    ensures Consume(b, limits, [c]) ==
            if b.Spent(c) >= limits.Limit(c) then Raised(Exhausted(c)) else Returned(b.With(c, b.Spent(c) + 1))
  {
    ConsumeMore(b, limits, [], c);
    assert [] + [c] == [c];
  }

  lemma TwoDraws(b: BudgetState, limits: RunBudget, c: Counter, d: Counter)
    ensures Consume(b, limits, [c, d]) ==
            if b.Spent(c) >= limits.Limit(c) then Raised(Exhausted(c))
            else if b.With(c, b.Spent(c) + 1).Spent(d) >= limits.Limit(d) then Raised(Exhausted(d))
            else Returned(b.With(c, b.Spent(c) + 1).With(d, b.With(c, b.Spent(c) + 1).Spent(d) + 1))
  {
    OneDraw(b, limits, c);
    assert [c, d][..1] == [c];
  }

  lemma StepDraw(setup: Setup, s: State)
    ensures var draw := Consume(s.budget, setup.limits, StepCounters(s));
            if s.budget.agentSteps >= setup.limits.maxAgentSteps then draw == Raised(AGENT_MAX_STEPS_EXCEEDED)
            else if s.replanRequested && s.budget.replans >= setup.limits.maxReplans
            then draw == Raised(AGENT_BUDGET_EXCEEDED)
            else draw == Returned(s.budget.(agentSteps := s.budget.agentSteps + 1,
                                            replans := s.budget.replans + if s.replanRequested then 1 else 0))
  {
    OneDraw(s.budget, setup.limits, AgentSteps);
    TwoDraws(s.budget, setup.limits, AgentSteps, Replans);
    hide Consume;
  }

  lemma ModelDraw(b: BudgetState, limits: RunBudget)
    ensures Consume(b, limits, [ModelCalls]) ==
            if b.modelCalls >= limits.maxModelCalls then Raised(AGENT_BUDGET_EXCEEDED)
            else Returned(b.(modelCalls := b.modelCalls + 1))
  {
    OneDraw(b, limits, ModelCalls);
    hide Consume;
  }

  /** What the planning node gets: a decision and the model calls it cost, or the error that stopped the asking. */
  lemma DecideIs(setup: Setup, s: State, budget: BudgetState, env: Env)
    requires budget.modelCalls == s.budget.modelCalls <= setup.limits.maxModelCalls
    ensures var choice := Decide(setup, s, budget, env);
            match choice
            case Returned(c) =>
              && DecisionOf(setup, s, env) == Some(c.decision)
              && c.budget == budget.(modelCalls := budget.modelCalls + ModelCallsFor(setup, s, env))
              && AnswerCause(setup, s, env) == DecisionCause(setup, s, c.decision)
            case Raised(e) => AnswerCause(setup, s, env) == Some(e)
  {
    hide Consume, DecisionCause;
    ModelDraw(budget, setup.limits);
    ModelDraw(budget.(modelCalls := budget.modelCalls + 1), setup.limits);
  }

  lemma PlanFails(setup: Setup, s: State, env: Env)
    requires Ready(setup, PlanOrReplan, s) && s.error.None? && EnvValid(env)
    ensures Plan(setup, s, env).state.error == Cause(setup, PlanOrReplan, s, env, None)
  {
    StopIsBlocked(s, env);
    StepDraw(setup, s);
    var draw := Consume(s.budget, setup.limits, StepCounters(s));
    if draw.Returned? {
      DecideIs(setup, s, draw.value, env);
      if Decide(setup, s, draw.value, env).Returned? {
        AnswersAreValid(setup, s, env);
      }
    }
    hide Consume, Decide, EnsureNodeEntry, FingerprintOf, AnswerCause, FirstRunnable, DecisionOf;
  }

  lemma AnswersAreValid(setup: Setup, s: State, env: Env)
    requires EnvValid(env) && DecisionOf(setup, s, env).Some?
    ensures ValidDecision(DecisionOf(setup, s, env).value)
  {
  }

  lemma GuardFails(setup: Setup, s: State, env: Env)
    requires Ready(setup, GuardDecision, s) && s.error.None?
    ensures Guard(setup, s, env).state.error == Cause(setup, GuardDecision, s, env, None)
  {
    StopIsBlocked(s, env);
    GuardPermits(setup, s, s.plannerDecision.value);
    hide EnsureNodeEntry;
  }

  lemma ToolDraw(setup: Setup, s: State, toolName: string)
    ensures Consume(s.budget, setup.limits, CountersOf(toolName)) ==
            if !ToolFits(setup, s, toolName) then Raised(AGENT_BUDGET_EXCEEDED)
            else Returned(s.budget.(
                   toolCalls := s.budget.toolCalls + 1,
                   queryCompiles := s.budget.queryCompiles + (if toolName == "query.compile" then 1 else 0),
                   queryPreviews := s.budget.queryPreviews + (if toolName == "query.preview" then 1 else 0),
                   queryExecutes := s.budget.queryExecutes + (if toolName == "query.execute" then 1 else 0)))
  {
    OneDraw(s.budget, setup.limits, ToolCalls);
    TwoDraws(s.budget, setup.limits, ToolCalls, QueryCompiles);
    TwoDraws(s.budget, setup.limits, ToolCalls, QueryPreviews);
    TwoDraws(s.budget, setup.limits, ToolCalls, QueryExecutes);
    hide Consume;
  }

  lemma ExecuteFails(setup: Setup, s: State, env: Env)
    requires Ready(setup, ExecuteTool, s)
    ensures Execute(setup, s, env).state.error == Cause(setup, ExecuteTool, s, env, None)
  {
    StopIsBlocked(s, env);
    ToolDraw(setup, s, s.pendingAction.value.toolName);
    hide Consume, EnsureNodeEntry, CountersOf, ToolFits;
  }

  lemma ObserveFails(setup: Setup, s: State, env: Env)
    requires Ready(setup, ObserveResult, s)
    ensures Observe(s, env).Finished? ==>
              Observe(s, env).state.error == Cause(setup, ObserveResult, s, env, None)
  {
    StopIsBlocked(s, env);
    hide EnsureNodeEntry;
  }

  lemma RequestFails(setup: Setup, s: State, env: Env, resume: Option<ResumeValue>)
    requires Ready(setup, RequestInput, s)
    ensures Request(setup, s, env, resume).Finished? ==>
              Request(setup, s, env, resume).state.error == Cause(setup, RequestInput, s, env, resume)
    ensures Request(setup, s, env, resume).Pause? <==> StopCause(s, env).None? && resume.None?
    ensures Request(setup, s, env, resume).Pause? ==>
              Request(setup, s, env, resume).request == s.waitingRequest.value
  {
    StopIsBlocked(s, env);
    if resume.Some? {
      AnswerFails(resume.value);
    }
    hide EnsureNodeEntry, ResumeMessage, AnswerRefused, FingerprintOf;
  }

  lemma AnswerFails(v: ResumeValue)
    ensures match ResumeMessage(v)
            case Raised(code) => AnswerRefused(v) == Some(Coded(code))
            case Returned(message) => AnswerRefused(v).None? && message == Answer(v)
  {
    if v.ResumeFields? {
      ForbiddenKeys(v.keys);
    }
    hide Log.Strip;
  }

  lemma ForbiddenKeys(keys: set<string>)
    ensures keys * FORBIDDEN_KEYS != {} <==>
            "authority" in keys || "tenant_id" in keys || "user_id" in keys || "source_id" in keys
            || "source_version" in keys || "binding_id" in keys || "binding_version" in keys
  {
    forall k | k in FORBIDDEN_KEYS && k in keys ensures keys * FORBIDDEN_KEYS != {} {
      assert k in keys * FORBIDDEN_KEYS;
    }
    if keys * FORBIDDEN_KEYS != {} {
      var k :| k in keys * FORBIDDEN_KEYS;
    }
  }

  lemma SynthesizeFails(setup: Setup, s: State, env: Env)
    requires Going(setup, s)
    ensures Synthesize(setup, s, env).state.error == Cause(setup, SynthesizeAnswer, s, env, None)
  {
    StopIsBlocked(s, env);
    ModelDraw(s.budget, setup.limits);
    hide EnsureNodeEntry, Consume, Live;
  }

  lemma LateFails(setup: Setup, s: State, env: Env)
    requires Going(setup, s)
    ensures Persist(s, env).state.error == Cause(setup, PersistTurn, s, env, None)
    ensures Finalize(s, env).state.error == Cause(setup, FinalizeRun, s, env, None)
  {
    StopIsBlocked(s, env);
    hide EnsureNodeEntry, Respond, Live;
  }

  lemma ValidateFails(setup: Setup, s: State, env: Env)
    requires Going(setup, s)
    ensures Validate(s, env).state.error == Cause(setup, ValidateAnswer, s, env, None)
  {
    StopIsBlocked(s, env);
    forall id ensures id in EvidenceIds(s.evidence) <==> exists e | e in s.evidence :: e.evidenceId == id {
      if id in EvidenceIds(s.evidence) {
        var i :| 0 <= i < |s.evidence| && EvidenceIds(s.evidence)[i] == id;
        assert s.evidence[i] in s.evidence;
      }
      if e :| e in s.evidence && e.evidenceId == id {
        var i :| 0 <= i < |s.evidence| && s.evidence[i] == e;
        assert EvidenceIds(s.evidence)[i] == id;
      }
    }
    hide EnsureNodeEntry, EvidenceIds;
  }

  /**
   * In every run, a node that was entered without an error leaves exactly the error of its cause, and none
   * where there is no cause. It pauses exactly to ask, unanswered and not stopped.
   */
  lemma FailsForItsCause(setup: Setup, moves: seq<Move>, m: Move)
    requires MovesValid(moves) && EnvValid(m.env) && Enabled(Reach(setup, moves), m)
    requires var c := Reach(setup, moves); c.state.error.None? && NodeOf(c) !in {EvaluateProgress, Fail}
    ensures var c := Reach(setup, moves);
            var t := TurnOf(setup, c, m);
            var resume := if m.Resume? then Some(m.value) else None;
            && (t.Finished? ==> t.state.error == Cause(setup, NodeOf(c), c.state, m.env, resume))
            && (t.Pause? <==> NodeOf(c).RequestInput? && StopCause(c.state, m.env).None? && resume.None?)
  {
    ReachFits(setup, moves);
    NodeFails(setup, NodeOf(Reach(setup, moves)), Reach(setup, moves).state, m.env,
        if m.Resume? then Some(m.value) else None);
    OnlyRequestPauses(setup, NodeOf(Reach(setup, moves)), Reach(setup, moves).state, m.env,
        if m.Resume? then Some(m.value) else None);
  }

  lemma OnlyRequestPauses(setup: Setup, node: Node, s: State, env: Env, resume: Option<ResumeValue>)
    requires Ready(setup, node, s) && EnvValid(env)
    ensures RunNode(setup, node, s, env, resume).Pause? ==> node.RequestInput?
  {
    hide RunNode, Ready, EnvValid;
    NodeOk(setup, node, s, env, resume);
  }

  lemma NodeFails(setup: Setup, node: Node, s: State, env: Env, resume: Option<ResumeValue>)
    requires Ready(setup, node, s) && EnvValid(env) && s.error.None? && node !in {EvaluateProgress, Fail}
    ensures var t := RunNode(setup, node, s, env, resume);
            && (t.Finished? ==> t.state.error == Cause(setup, node, s, env, resume))
            && (node.RequestInput? ==> (t.Pause? <==> StopCause(s, env).None? && resume.None?))
  {
    hide Initialize, Load, Plan, Guard, Execute, Observe, Request, Synthesize, Validate, Persist, Finalize;
    hide StartCause, StopCause, PlanCause, GuardCause, ToolCause, AnswerRefused, DraftCause, GroundingCause, EnvValid;
    match node
    case InitializeRun => StartFails(setup, env);
    case LoadContext => LoadFails(setup, s, env);
    case PlanOrReplan => PlanFails(setup, s, env);
    case GuardDecision => GuardFails(setup, s, env);
    case ExecuteTool => ExecuteFails(setup, s, env);
    case ObserveResult => ObserveFails(setup, s, env);
    case RequestInput => RequestFails(setup, s, env, resume);
    case ValidateAnswer => ValidateFails(setup, s, env);
    case SynthesizeAnswer => SynthesizeFails(setup, s, env);
    case _ => LateFails(setup, s, env);
  }

  // ---- what the planning and the tool node leave ----

  lemma PlanCosts(setup: Setup, s: State, env: Env)
    requires Ready(setup, PlanOrReplan, s) && s.error.None? && PlanGoesAhead(setup, s, env)
    ensures Plan(setup, s, env).state.budget == s.budget.(
              agentSteps := s.budget.agentSteps + 1,
              replans := s.budget.replans + (if s.replanRequested then 1 else 0),
              modelCalls := s.budget.modelCalls + ModelCallsFor(setup, s, env))
  {
    PlanGoesAheadIff(setup, s, env);
    StepDraw(setup, s);
    ConsumeIffRoom(s.budget, setup.limits, StepCounters(s));
    DecideIs(setup, s, Consume(s.budget, setup.limits, StepCounters(s)).value, env);
    hide Consume, HasRoom, Decide, EnsureNodeEntry, FingerprintOf, FirstRunnable, AnswerCause, ModelCallsFor,
         DecisionOf, SetStatus, Live;
  }

  /**
   * A plan that goes ahead costs one step, the replan that was due and the model calls made for it, and
   * counts as a revision exactly if it is the first or has another revision than the one before.
   */
  lemma PlanLeaves(setup: Setup, s: State, env: Env)
    requires Ready(setup, PlanOrReplan, s) && s.error.None? && PlanGoesAhead(setup, s, env)
    ensures var t := Plan(setup, s, env).state;
            && t.budget == s.budget.(
                 agentSteps := s.budget.agentSteps + 1,
                 replans := s.budget.replans + (if s.replanRequested then 1 else 0),
                 modelCalls := s.budget.modelCalls + ModelCallsFor(setup, s, env))
            && !t.replanRequested && t.plan.Some?
            && t.planRevisionCount == s.planRevisionCount
                 + if s.plan.Some? && s.plan.value.revision == t.plan.value.revision then 0 else 1
  {
    PlanCosts(setup, s, env);
    PlanGoesAheadIff(setup, s, env);
    hide Plan, PlanGoesAhead, DecisionOf, ModelCallsFor, SetStatus, Live, FirstRunnable;
  }

  /** A tool call that succeeds or fails as a tool costs one tool call and its own counter, and waits to be observed. */
  lemma ExecuteLeaves(setup: Setup, s: State, env: Env)
    requires Ready(setup, ExecuteTool, s) && Cause(setup, ExecuteTool, s, env, None).None?
    ensures var t := Execute(setup, s, env).state;
            var name := s.pendingAction.value.toolName;
            && env.observed.Returned? && t.pendingObservation == Some(env.observed.value)
            && t.budget == s.budget.(
                 toolCalls := s.budget.toolCalls + 1,
                 queryCompiles := s.budget.queryCompiles + (if name == "query.compile" then 1 else 0),
                 queryPreviews := s.budget.queryPreviews + (if name == "query.preview" then 1 else 0),
                 queryExecutes := s.budget.queryExecutes + (if name == "query.execute" then 1 else 0))
  {
    StopIsBlocked(s, env);
    ToolDraw(setup, s, s.pendingAction.value.toolName);
    hide Consume, EnsureNodeEntry, CountersOf, ToolFits;
  }

  /** The nodes around them keep what came back: the tools of the view, the answered question, the draft. */
  lemma LoadLeaves(setup: Setup, s: State, env: Env)
    requires Going(setup, s) && Cause(setup, LoadContext, s, env, None).None?
    ensures env.loaded.Returned? && Load(s, env).state.allowedTools == env.loaded.value
  {
    StopIsBlocked(s, env);
    hide EnsureNodeEntry, Live;
  }

  lemma RequestLeaves(setup: Setup, s: State, env: Env, v: ResumeValue)
    requires Ready(setup, RequestInput, s) && Cause(setup, RequestInput, s, env, Some(v)).None?
    ensures var t := Request(setup, s, env, Some(v));
            && t.Finished? && t.state.waitingRequest.None? && t.state.replanRequested && t.state.status.AgentRunning?
            && t.state.turns == s.turns + [FingerprintOf(setup, s.waitingRequest.value)]
  {
    StopIsBlocked(s, env);
    AnswerFails(v);
    hide EnsureNodeEntry, ResumeMessage, AnswerRefused, FingerprintOf, Live;
  }

  lemma SynthesizeLeaves(setup: Setup, s: State, env: Env)
    requires Going(setup, s) && Cause(setup, SynthesizeAnswer, s, env, None).None?
    ensures var t := Synthesize(setup, s, env).state;
            var unread := setup.authority.mode.PlanMode? && s.evidence == [];
            && (unread ==> t.draft.Some? && t.draft.value.evidenceIds == [] && t.draft.value.limitations != [])
            && (!unread ==> env.drafted.Returned? && t.draft == Some(env.drafted.value))
            && t.budget == s.budget.(
                 modelCalls := s.budget.modelCalls + if !unread && env.synthesisTimeLeft then 1 else 0)
  {
    StopIsBlocked(s, env);
    ModelDraw(s.budget, setup.limits);
    hide EnsureNodeEntry, Consume, Live;
  }

  /**
   * The failing node reports the error the run came with, as cancelled exactly if that was the cause, and
   * blocks the steps that were running.
   */
  lemma FailReports(setup: Setup, moves: seq<Move>, m: Move)
    requires MovesValid(moves) && EnvValid(m.env) && m.Advance?
    requires Reach(setup, moves).At? && Reach(setup, moves).node.Fail?
    ensures var s, next := Reach(setup, moves).state, Next(setup, Reach(setup, moves), m);
            && next.Ended? && s.error.Some? && next.state.error == s.error
            && TurnOf(setup, Reach(setup, moves), m).payloads == [RunFailed(s.error.value.code)]
            && next.state.status == (if s.error.value.code.CANCELLED? then AgentCancelled else AgentFailed)
            && next.state.response.Some? && next.state.response.value.error == s.error
            && (next.state.plan.Some? <==> s.plan.Some?)
            && (s.plan.Some? ==>
                  && |next.state.plan.value.steps| == |s.plan.value.steps|
                  && next.state.plan.value == s.plan.value.(steps := next.state.plan.value.steps)
                  && forall i | 0 <= i < |s.plan.value.steps| ::
                    next.state.plan.value.steps[i]
                    == if s.plan.value.steps[i].status.StepRunning?
                       then s.plan.value.steps[i].(status := StepBlocked) else s.plan.value.steps[i])
  {
    ReachFits(setup, moves);
    FailTurn(setup, Reach(setup, moves).state, m);
    FailLeaves(Reach(setup, moves).state);
    hide FailRun, Reach, TurnOf, Next, Landed, EnvValid, BudgetChain, IsTerminalStatus;
  }

  lemma FailTurn(setup: Setup, s: State, m: Move)
    requires m.Advance?
    ensures TurnOf(setup, At(Fail, s), m) == FailRun(s)
    ensures FailRun(s).Finished? && Next(setup, At(Fail, s), m) == Landed(Fail, FailRun(s).state)
  {
  }

  lemma FailLeaves(s: State)
    requires s.error.Some?
    ensures var t := FailRun(s);
            && Landed(Fail, t.state) == Ended(t.state) && t.Finished?
            && t.state.error == s.error && t.payloads == [RunFailed(s.error.value.code)]
            && t.state.status == (if s.error.value.code.CANCELLED? then AgentCancelled else AgentFailed)
            && t.state.response.Some? && t.state.response.value.error == s.error
            && (t.state.plan.Some? <==> s.plan.Some?)
            && (s.plan.Some? ==>
                  && |t.state.plan.value.steps| == |s.plan.value.steps|
                  && t.state.plan.value == s.plan.value.(steps := t.state.plan.value.steps)
                  && forall i | 0 <= i < |s.plan.value.steps| ::
                    t.state.plan.value.steps[i]
                    == if s.plan.value.steps[i].status.StepRunning?
                       then s.plan.value.steps[i].(status := StepBlocked) else s.plan.value.steps[i])
  {
    hide Respond;
    RespondsWithError(s, AgentFailed);
    RespondsWithError(s, AgentCancelled);
  }

  lemma RespondsWithError(s: State, status: AgentStatus)
    ensures forall plan :: Respond(s.(error := s.error, status := status, plan := plan), false).error == s.error
  {
  }
}
