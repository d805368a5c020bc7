/**
 * The analysis graph as a step machine: every node is a function from the run's state and what the
 * outside world answers at that moment to the next state and the payloads it emits.
 */
module AnalysisGraph {
  import opened Outcomes
  import opened AgentModels
  import opened AgentRouting
  import opened AgentGuard
  import opened AgentReducers
  import opened AgentEvaluator
  import opened PlanGraph
  import Log = RunEventStore

  // ---- what stays fixed during a run ----

  /** The run's context: pins, limits and tools. `fold` is the text normalization of prompts. */
  datatype Setup = Setup(
    runId: string,
    authority: DatasetAuthority,
    requestMode: AgentMode,
    requestPins: Option<SourcePins>,
    limits: RunBudget,
    specs: map<string, ToolSpec>,
    hasResolver: bool,
    fold: string -> string,
    callId: AgentAction -> string)

  // ---- what the outside world may answer while a node executes ----

  datatype ResumeValue = ResumeText(text: string) | ResumeFields(keys: set<string>, message: string) | ResumeOther

  datatype Draft = Draft(evidenceIds: seq<string>, limitations: seq<string>)

  /**
   * The clock and the cancellation flag, and the outcome of each call a node may make. A deadline
   * that passes while a call is awaited is one of the errors the call may raise.
   */
  datatype Env = Env(
    now: int,
    cancelled: bool,
    loaded: Outcome<seq<string>, AgentError>,
    initialDecision: Outcome<Option<PlannerDecision>, AgentError>,
    resolverCallsModel: bool,
    resolved: Outcome<Option<PlannerDecision>, AgentError>,
    planned: Outcome<PlannerDecision, AgentError>,
    observed: Outcome<Observation, AgentError>,
    evaluationInterrupted: Option<AgentError>,
    modelEvaluation: Outcome<EvaluationDecision, AgentError>,
    synthesisTimeLeft: bool,
    drafted: Outcome<Draft, AgentError>,
    answerRejected: Option<AgentError>,
    persistFailed: Option<AgentError>)

  ghost predicate DecisionOk(d: PlannerDecision) {
    ValidDecision(d) && ValidPlan(d.plan)
  }

  /** Every value that comes back has passed its own constructor's checks. */
  ghost predicate EnvValid(env: Env) {
    && (env.initialDecision.Returned? && env.initialDecision.value.Some?
       ==> DecisionOk(env.initialDecision.value.value))
    && (env.resolved.Returned? && env.resolved.value.Some? ==> DecisionOk(env.resolved.value.value))
    && (env.planned.Returned? ==> DecisionOk(env.planned.value))
    && (env.observed.Returned? ==> ValidObservation(env.observed.value))
    && (env.modelEvaluation.Returned? ==> ValidEvaluation(env.modelEvaluation.value))
  }

  // ---- the state ----

  datatype Fingerprint = Fingerprint(reason: string, origin: RequestOrigin, prompt: string, choices: seq<string>,
      allowFreeText: bool)

  datatype State = State(
    status: AgentStatus,
    plan: Option<AnalysisPlan>,
    plannerDecision: Option<PlannerDecision>,
    evaluation: Option<EvaluationDecision>,
    pendingAction: Option<AgentAction>,
    pendingObservation: Option<Observation>,
    nextRoute: Option<Node>,
    replanRequested: bool,
    actionSteps: map<string, string>,
    observations: seq<Observation>,
    artifacts: seq<ArtifactRef>,
    evidence: seq<EvidenceRef>,
    budget: BudgetState,
    allowedTools: seq<string>,
    planRevisionCount: nat,
    waitingRequest: Option<InputRequest>,
    turns: seq<Fingerprint>,
    draft: Option<Draft>,
    response: Option<AgentResponse>,
    error: Option<AgentError>)

  const NO_BUDGET := BudgetState(0, 0, 0, 0, 0, 0, 0, 0, 0)

  const INITIAL := State(AgentInitializing, None, None, None, None, None, None, false, map[], [], [], [],
                         NO_BUDGET, [], 0, None, [], None, None, None)

  /** How one execution of a node ends: with an update, at an interrupt, or because a reducer raised. */
  datatype Turn =
    | Finished(state: State, payloads: seq<EventData>)
    | Pause(request: InputRequest)
    | Crash(payloads: seq<EventData>)

  // ---- the nodes ----

  function Failed(s: State, error: AgentError, payloads: seq<EventData>): Turn {
    Finished(s.(error := Some(error), nextRoute := Some(Fail)), payloads)
  }

  function Coded(code: ErrorCode): AgentError {
    AgentError(code, false)
  }

  function Blocked(s: State, env: Env): Option<ErrorCode> {
    EnsureNodeEntry(s.status, s.budget, env.now, env.cancelled)
  }

  function Initialize(setup: Setup, s: State, env: Env): Turn {
    if setup.requestMode != setup.authority.mode then Failed(s, Coded(ACCESS_DENIED), [])
    else if setup.requestPins.Some? && setup.requestPins.value != setup.authority.pins
        then Failed(s, Coded(ACCESS_DENIED), [])
    else if env.cancelled then Failed(s, Coded(CANCELLED), [])
    else
      Finished(
        INITIAL.(status := AgentRunning,
                 budget := NO_BUDGET.(startedAt := env.now, deadlineAt := env.now + setup.limits.maxDurationSeconds),
                 nextRoute := Some(LoadContext)),
        [RunStarted])
  }

  function Load(s: State, env: Env): Turn {
    if Blocked(s, env).Some? then Failed(s, Coded(Blocked(s, env).value), [])
    else
      match env.loaded
      case Raised(e) => Failed(s, e, [])
      case Returned(tools) => Finished(s.(allowedTools := tools, nextRoute := Some(PlanOrReplan)), [ContextResolved])
  }

  function FingerprintOf(setup: Setup, r: InputRequest): Fingerprint {
    Fingerprint(r.reason, r.origin, setup.fold(r.prompt), r.choices, r.allowFreeText)
  }

  datatype Choice = Choice(decision: PlannerDecision, budget: BudgetState)

  function AskPlanner(setup: Setup, budget: BudgetState, env: Env): Outcome<Choice, AgentError> {
    match Consume(budget, setup.limits, [ModelCalls])
    case Raised(code) => Raised(Coded(code))
    case Returned(b) =>
      match env.planned
      case Raised(e) => Raised(e)
      case Returned(d) => Returned(Choice(d, b))
  }

  function AskResolver(setup: Setup, budget: BudgetState, env: Env): Outcome<Choice, AgentError> {
    match if env.resolverCallsModel then Consume(budget, setup.limits, [ModelCalls]) else Returned(budget)
    case Raised(code) => Raised(Coded(code))
    case Returned(b) =>
      match env.resolved
      case Raised(e) => Raised(e)
      case Returned(Some(d)) => Returned(Choice(d, b))
      case Returned(None) => AskPlanner(setup, b, env)
  }

  /** The resolver is asked first, for a first plan or to go on with one; the planner decides what it leaves open. */
  function Decide(setup: Setup, s: State, budget: BudgetState, env: Env): Outcome<Choice, AgentError> {
    if setup.hasResolver && s.plan.None? then
      match env.initialDecision
      case Raised(e) => Raised(e)
      case Returned(Some(d)) => Returned(Choice(d, budget))
      case Returned(None) => AskPlanner(setup, budget, env)
    else if setup.hasResolver && (s.observations != [] || s.replanRequested) then AskResolver(setup, budget, env)
    else AskPlanner(setup, budget, env)
  }

  function SetStatus(steps: seq<AnalysisStep>, stepId: string, status: StepStatus): (r: seq<AnalysisStep>)
    ensures |r| == |steps|
    ensures forall i | 0 <= i < |steps| ::
              r[i] == if steps[i].stepId == stepId then steps[i].(status := status) else steps[i]
  {
    if steps == [] then []
    else
      var last := steps[|steps| - 1];
      SetStatus(steps[..|steps| - 1], stepId, status)
          + [if last.stepId == stepId then last.(status := status) else last]
  }

  function StepCounters(s: State): seq<Counter> {
    if s.replanRequested then [AgentSteps, Replans] else [AgentSteps]
  }

  /** The state and payloads for a decision; `started` is the index of the step an act starts. */
  function Planned(s: State, d: PlannerDecision, budget: BudgetState, started: Option<nat>): Turn
    requires started.Some? ==> d.nextAction.Some? && started.value < |d.plan.steps|
  {
    var plan := if started.None? then d.plan
                else d.plan.(steps := SetStatus(d.plan.steps, d.plan.steps[started.value].stepId, StepRunning));
    Finished(
      s.(budget := budget,
         plan := Some(plan),
         plannerDecision := Some(d.(plan := plan)),
         pendingAction := d.nextAction,
         waitingRequest := d.clarification,
         actionSteps := if started.None? then s.actionSteps
                        else s.actionSteps[d.nextAction.value.actionId := d.plan.steps[started.value].stepId],
         planRevisionCount := if s.plan.None? || plan.revision != s.plan.value.revision then s.planRevisionCount + 1
             else s.planRevisionCount,
         replanRequested := false,
         status := if d.kind.Clarify? then AgentWaiting else AgentRunning,
         nextRoute := None),
      [PlanUpdated(plan)]
      + if started.None? then []
        else [StepStarted(d.plan.steps[started.value].stepId, d.plan.steps[started.value].objective)])
  }

  function Plan(setup: Setup, s: State, env: Env): Turn {
    if Blocked(s, env).Some? then Failed(s, Coded(Blocked(s, env).value), [])
    else
      match Consume(s.budget, setup.limits, StepCounters(s))
      case Raised(code) => Failed(s, Coded(code), [])
      case Returned(budget) =>
        match Decide(setup, s, budget, env)
        case Raised(e) => Failed(s, e, [])
        case Returned(choice) =>
          var d := choice.decision;
          if d.kind.Clarify? && d.clarification.Some? && FingerprintOf(setup, d.clarification.value) in s.turns then
            Failed(s, Coded(AGENT_CLARIFICATION_LOOP), [])
          else if !d.kind.Act? then Planned(s, d, choice.budget, None)
          else if FirstRunnable(d.plan.steps).None? || d.nextAction.None?
              then Failed(s, Coded(AGENT_DECISION_INVALID), [])
          else Planned(s, d, choice.budget, FirstRunnable(d.plan.steps))
  }

  // ---- when planning goes ahead ----

  predicate InitialAsked(setup: Setup, s: State) {
    setup.hasResolver && s.plan.None?
  }

  predicate ResolverAsked(setup: Setup, s: State) {
    setup.hasResolver && s.plan.Some? && (s.observations != [] || s.replanRequested)
  }

  /** The planner decides when the resolver is not asked, or leaves the choice open. */
  predicate PlannerAsked(setup: Setup, s: State, env: Env) {
    if InitialAsked(setup, s) then env.initialDecision == Returned(None)
    else if ResolverAsked(setup, s) then env.resolved == Returned(None)
    else true
  }

  /** The answer that comes back to the planning node, if one does. */
  function DecisionOf(setup: Setup, s: State, env: Env): Option<PlannerDecision> {
    if PlannerAsked(setup, s, env) then (if env.planned.Returned? then Some(env.planned.value) else None)
    else if InitialAsked(setup, s) then (if env.initialDecision.Returned? then env.initialDecision.value else None)
    else if env.resolved.Returned? then env.resolved.value
    else None
  }

  /** The model calls charged for the decision. */
  function ModelCallsFor(setup: Setup, s: State, env: Env): nat {
    (if !InitialAsked(setup, s) && ResolverAsked(setup, s) && env.resolverCallsModel then 1 else 0)
    + if PlannerAsked(setup, s, env) then 1 else 0
  }

  /** The step a decision starts. */
  function StartedStep(d: PlannerDecision): Option<nat> {
    if d.kind.Act? then FirstRunnable(d.plan.steps) else None
  }

  /**
   * The guards of the planning node, all of which can be checked before it runs: the run is not
   * stopped, there is room for its counters and for the model calls, an answer comes back, it does not
   * repeat a question, and an act finds a step to start.
   */
  predicate PlanGoesAhead(setup: Setup, s: State, env: Env) {
    && Blocked(s, env).None?
    && HasRoom(s.budget, setup.limits, StepCounters(s))
    && s.budget.modelCalls + ModelCallsFor(setup, s, env) <= setup.limits.maxModelCalls
    && DecisionOf(setup, s, env).Some?
    && var d := DecisionOf(setup, s, env).value;
    && (d.kind.Clarify? && d.clarification.Some? ==> FingerprintOf(setup, d.clarification.value) !in s.turns)
    && (d.kind.Act? ==> d.nextAction.Some? && FirstRunnable(d.plan.steps).Some?)
  }

  function Guard(setup: Setup, s: State, env: Env): Turn {
    if s.error.Some? then Finished(s.(nextRoute := Some(Fail)), [])
    else if Blocked(s, env).Some? then Failed(s, Coded(Blocked(s, env).value), [])
    else if s.plannerDecision.None? then Failed(s, Coded(AGENT_DECISION_INVALID), [])
    else
      match GuardPlannerDecision(s.plannerDecision.value, setup.authority.mode, s.allowedTools, setup.specs)
      case Raised(code) => Failed(s, Coded(code), [])
      case Returned(route) =>
        if route.Fail? then Failed(s, Coded(AGENT_DECISION_INVALID), []) else Finished(s.(nextRoute := Some(route)), [])
  }

  function Execute(setup: Setup, s: State, env: Env): Turn {
    if Blocked(s, env).Some? then Failed(s, Coded(Blocked(s, env).value), [])
    else if s.pendingAction.None? then Failed(s, Coded(AGENT_ACTION_NOT_ALLOWED), [])
    else
      var action := s.pendingAction.value;
      match Consume(s.budget, setup.limits, CountersOf(action.toolName))
      case Raised(code) => Failed(s, Coded(code), [])
      case Returned(budget) =>
        var call := setup.callId(action);
        var starting := ToolStarted(call, action.actionId, action.toolName);
        match env.observed
        case Raised(e) => Failed(s, e, [starting])
        case Returned(o) =>
          if o.actionId != action.actionId || o.toolName != action.toolName then
            Failed(s, Coded(AGENT_ACTION_NOT_ALLOWED), [starting])
          else
            Finished(
              s.(budget := budget, pendingObservation := Some(o), nextRoute := Some(ObserveResult)),
              [starting, ToolCompleted(call, action.actionId, o.succeeded, o.artifactRefs, o.evidenceRefs)])
  }

  function ArtifactIds(items: seq<ArtifactRef>): (r: seq<string>)
    ensures |r| == |items|
  {
    seq(|items|, i requires 0 <= i < |items| => items[i].artifactId)
  }

  function EvidenceIds(items: seq<EvidenceRef>): (r: seq<string>)
    ensures |r| == |items|
  {
    seq(|items|, i requires 0 <= i < |items| => items[i].evidenceId)
  }

  function ObservationKey(o: Observation): string { o.observationId }

  function ArtifactKey(a: ArtifactRef): string { a.artifactId }

  function EvidenceKey(e: EvidenceRef): string { e.evidenceId }

  /** The three append-only reducers run when the update is applied; a conflict stops the graph. */
  function Recorded(s: State, o: Observation, plan: AnalysisPlan): Turn {
    var recorded := ObservationRecorded(o.observationId, o.actionId, o.summary, ArtifactIds(o.artifactRefs),
        EvidenceIds(o.evidenceRefs));
    var observations := MergeAll(s.observations, ObservationKey, [o]);
    var artifacts := MergeAll(s.artifacts, ArtifactKey, o.artifactRefs);
    var evidence := MergeAll(s.evidence, EvidenceKey, o.evidenceRefs);
    if observations.Raised? || artifacts.Raised? || evidence.Raised? then Crash([recorded])
    else
      Finished(
        s.(plan := Some(plan),
           observations := observations.value,
           artifacts := artifacts.value,
           evidence := evidence.value,
           pendingObservation := None,
           nextRoute := Some(EvaluateProgress)),
        [recorded])
  }

  function Observe(s: State, env: Env): Turn {
    if Blocked(s, env).Some? then Failed(s, Coded(Blocked(s, env).value), [])
    else if s.pendingObservation.None? then Failed(s, Coded(INTERNAL_ERROR), [])
    else if s.plan.None? then Failed(s, Coded(INTERNAL_ERROR), [])
    else
      var o := s.pendingObservation.value;
      if o.actionId !in s.actionSteps then Failed(s, Coded(AGENT_DECISION_INVALID), [])
      else
        var outcome := if o.succeeded then StepCompleted else StepBlocked;
        Recorded(s, o, s.plan.value.(steps := SetStatus(s.plan.value.steps, s.actionSteps[o.actionId], outcome)))
  }

  function RouteOf(kind: EvaluationKind): Node {
    match kind
    case Continue => PlanOrReplan
    case Replan => PlanOrReplan
    case AskUser => RequestInput
    case Done => SynthesizeAnswer
    case Abort => Fail
  }

  function Evaluated(s: State, d: EvaluationDecision, budget: BudgetState): Turn {
    Finished(
      s.(budget := budget,
         evaluation := Some(d),
         waitingRequest := d.clarification,
         replanRequested := d.kind.Replan?,
         status := if d.kind.AskUser? then AgentWaiting else AgentRunning,
         nextRoute := Some(RouteOf(d.kind)),
         error := if d.kind.Abort? then Some(Coded(AGENT_EVIDENCE_INSUFFICIENT)) else s.error),
      [])
  }

  function Evaluate(setup: Setup, s: State, env: Env): Turn {
    if Blocked(s, env).Some? then Failed(s, Coded(Blocked(s, env).value), [])
    else if s.plan.None? then Failed(s, Coded(INTERNAL_ERROR), [])
    else
      match ProgressDecision(s.plan.value, setup.authority, setup.runId, s.observations, s.artifacts, s.evidence)
      case Some(d) =>
        if env.evaluationInterrupted.Some? then Failed(s, env.evaluationInterrupted.value, [])
        else Evaluated(s, d, s.budget)
      case None =>
        match Consume(s.budget, setup.limits, [ModelCalls])
        case Raised(code) => Failed(s, Coded(code), [])
        case Returned(budget) =>
          match env.modelEvaluation
          case Raised(e) => Failed(s, e, [])
          case Returned(d) => Evaluated(s, d, budget)
  }

  const FORBIDDEN_KEYS := {
    "authority", "tenant_id", "user_id", "source_id", "source_version", "binding_id", "binding_version"}

  function ResumeMessage(v: ResumeValue): Outcome<string, ErrorCode> {
    if v.ResumeFields? && v.keys * FORBIDDEN_KEYS != {} then Raised(OTHER_ERROR("AGENT_RESUME_CONFLICT"))
    else
      var message := match v
        case ResumeText(text) => Log.Strip(text)
        case ResumeFields(keys, text) => if "message" in keys then Log.Strip(text) else ""
        case ResumeOther => "";
      if message == "" || |message| > 4000 then Raised(AGENT_INTERRUPT_STALE) else Returned(message)
  }

  /** Without an answer the node interrupts the run; with one it is executed again from its start. */
  function Request(setup: Setup, s: State, env: Env, resume: Option<ResumeValue>): Turn {
    if Blocked(s, env).Some? then Failed(s, Coded(Blocked(s, env).value), [])
    else if s.waitingRequest.None? then Failed(s, Coded(AGENT_DECISION_INVALID), [])
    else if resume.None? then Pause(s.waitingRequest.value)
    else
      match ResumeMessage(resume.value)
      case Raised(code) => Failed(s, Coded(code), [])
      case Returned(_) =>
        var request := s.waitingRequest.value;
        Finished(
          s.(turns := s.turns + [FingerprintOf(setup, request)],
             waitingRequest := None,
             status := AgentRunning,
             replanRequested := true,
             nextRoute := Some(PlanOrReplan)),
          [RunResumed(request.interruptId)])
  }

  /** The draft comes from the model while there is time for it, and from the evidence otherwise. */
  function Synthesize(setup: Setup, s: State, env: Env): Turn {
    if Blocked(s, env).Some? then Failed(s, Coded(Blocked(s, env).value), [])
    else
      var started := AnswerSynthesizing(EvidenceIds(s.evidence));
      if setup.authority.mode.PlanMode? && s.evidence == [] then
        Finished(s.(draft := Some(Draft([], ["Plan mode does not execute or preview datasource rows."])),
                    nextRoute := Some(ValidateAnswer)), [started])
      else
        match if env.synthesisTimeLeft then Consume(s.budget, setup.limits, [ModelCalls]) else Returned(s.budget)
        case Raised(code) => Failed(s, Coded(code), [started])
        case Returned(budget) =>
          match env.drafted
          case Raised(e) => Failed(s, e, [started])
          case Returned(draft) =>
            Finished(s.(budget := budget, draft := Some(draft), nextRoute := Some(ValidateAnswer)), [started])
  }

  function Validate(s: State, env: Env): Turn {
    if Blocked(s, env).Some? then Failed(s, Coded(Blocked(s, env).value), [])
    else if s.draft.None? then Failed(s, Coded(AGENT_RESPONSE_UNGROUNDED), [])
    else if exists id | id in s.draft.value.evidenceIds :: id !in EvidenceIds(s.evidence) then
      Failed(s, Coded(AGENT_RESPONSE_UNGROUNDED), [])
    else if env.answerRejected.Some? then Failed(s, env.answerRejected.value, [])
    else Finished(s.(nextRoute := Some(PersistTurn)), [])
  }

  function Persist(s: State, env: Env): Turn {
    if Blocked(s, env).Some? then Failed(s, Coded(Blocked(s, env).value), [])
    else if env.persistFailed.Some? then Failed(s, env.persistFailed.value, [])
    else Finished(s.(nextRoute := Some(FinalizeRun)), [])
  }

  function Respond(s: State, ok: bool): AgentResponse {
    AgentResponse(
      ok,
      if ok then None else s.error,
      s.plan,
      if s.plan.None? then [] else seq(|s.plan.value.steps|, i requires 0 <= i < |s.plan.value.steps| =>
                                         (s.plan.value.steps[i].stepId, s.plan.value.steps[i].status)),
      s.artifacts,
      s.evidence)
  }

  function Finalize(s: State, env: Env): Turn {
    if Blocked(s, env).Some? then Failed(s, Coded(Blocked(s, env).value), [])
    else
      Finished(
        s.(status := AgentCompleted, response := Some(Respond(s.(status := AgentCompleted), true)), nextRoute := None),
        [RunCompleted])
  }

  function BlockRunning(steps: seq<AnalysisStep>): (r: seq<AnalysisStep>)
    ensures |r| == |steps|
    ensures forall i | 0 <= i < |steps| ::
              r[i] == if steps[i].status.StepRunning? then steps[i].(status := StepBlocked) else steps[i]
  {
    if steps == [] then []
    else
      var last := steps[|steps| - 1];
      BlockRunning(steps[..|steps| - 1]) + [if last.status.StepRunning? then last.(status := StepBlocked) else last]
  }

  /** No entry guard: the node that reports a failure always runs, and a failing persistence hook is only logged. */
  function FailRun(s: State): Turn {
    var error := if s.error.Some? then s.error.value else Coded(INTERNAL_ERROR);
    var failed := s.(
      error := Some(error),
      status := if error.code.CANCELLED? then AgentCancelled else AgentFailed,
      plan := if s.plan.None? then None else Some(s.plan.value.(steps := BlockRunning(s.plan.value.steps))));
    Finished(failed.(response := Some(Respond(failed, false)), nextRoute := None), [RunFailed(error.code)])
  }

  function RunNode(setup: Setup, node: Node, s: State, env: Env, resume: Option<ResumeValue>): Turn {
    match node
    case InitializeRun => Initialize(setup, s, env)
    case LoadContext => Load(s, env)
    case PlanOrReplan => Plan(setup, s, env)
    case GuardDecision => Guard(setup, s, env)
    case ExecuteTool => Execute(setup, s, env)
    case ObserveResult => Observe(s, env)
    case EvaluateProgress => Evaluate(setup, s, env)
    case RequestInput => Request(setup, s, env, resume)
    case SynthesizeAnswer => Synthesize(setup, s, env)
    case ValidateAnswer => Validate(s, env)
    case PersistTurn => Persist(s, env)
    case FinalizeRun => Finalize(s, env)
    case Fail => FailRun(s)
  }

  // ---- running the graph ----

  /** Between supersteps a run stands before a node, waits for an answer, has ended, or has crashed. */
  datatype Config = At(node: Node, state: State) | Paused(state: State) | Ended(state: State) | Crashed(state: State)

  /** What the graph's stream yields: payloads as they are emitted, then the interrupt or the update of the node. */
  datatype Item = Custom(data: EventData) | Interrupted(request: InputRequest)
      | Updated(response: Option<AgentResponse>)

  function Customs(payloads: seq<EventData>): (items: seq<Item>)
    ensures |items| == |payloads|
    ensures forall i | 0 <= i < |payloads| :: items[i] == Custom(payloads[i])
  {
    seq(|payloads|, i requires 0 <= i < |payloads| => Custom(payloads[i]))
  }

  function Landed(node: Node, s: State): Config {
    match Edge(node, s.error.Some?, s.nextRoute)
    case Raised(_) => Crashed(s)
    case Returned(To(n)) => At(n, s)
    case Returned(End) => Ended(s)
  }

  lemma LandedIs(node: Node, s: State)
    ensures Landed(node, s).state == s
  {
  }

  /** One superstep: an attempt of one node; a new stream attempts the paused node again with an answer. */
  datatype Move = Advance(env: Env) | Resume(env: Env, value: ResumeValue)

  predicate Enabled(c: Config, m: Move) {
    (c.At? && m.Advance?) || (c.Paused? && m.Resume?)
  }

  function NodeOf(c: Config): Node
    requires c.At? || c.Paused?
  {
    if c.At? then c.node else RequestInput
  }

  function TurnOf(setup: Setup, c: Config, m: Move): Turn
    requires Enabled(c, m)
  {
    RunNode(setup, NodeOf(c), c.state, m.env, if m.Resume? then Some(m.value) else None)
  }

  function After(c: Config, t: Turn): Config
    requires c.At? || c.Paused?
  {
    match t
    case Finished(s, _) => Landed(NodeOf(c), s)
    case Pause(_) => Paused(c.state)
    case Crash(_) => Crashed(c.state)
  }

  function ItemsOf(t: Turn): seq<Item> {
    match t
    case Finished(s, payloads) => Customs(payloads) + [Updated(s.response)]
    case Pause(request) => [Interrupted(request)]
    case Crash(payloads) => Customs(payloads)
  }

  /** A move that does not fit the configuration is no move at all. */
  function Next(setup: Setup, c: Config, m: Move): Config {
    if Enabled(c, m) then After(c, TurnOf(setup, c, m)) else c
  }

  function Reach(setup: Setup, moves: seq<Move>): Config {
    if moves == [] then At(InitializeRun, INITIAL)
    else Next(setup, Reach(setup, moves[..|moves| - 1]), moves[|moves| - 1])
  }

  function Counted(setup: Setup, c: Config, m: Move): nat {
    if Enabled(c, m) && TurnOf(setup, c, m).Finished? then 1 else 0
  }

  /** The number of node executions that ran to their end. */
  function Completions(setup: Setup, moves: seq<Move>): nat {
    if moves == [] then 0
    else
      Completions(setup, moves[..|moves| - 1])
      + Counted(setup, Reach(setup, moves[..|moves| - 1]), moves[|moves| - 1])
  }

  ghost predicate MovesValid(moves: seq<Move>) {
    forall m | m in moves :: EnvValid(m.env)
  }

  // ---- what every reachable configuration keeps ----

  ghost predicate Live(setup: Setup, s: State) {
    && BudgetChain(s.budget, setup.limits)
    && UniqueIds(s.observations, ObservationKey) && UniqueIds(s.artifacts, ArtifactKey)
       && UniqueIds(s.evidence, EvidenceKey)
    && (s.plan.Some? ==> Distinct(StepIds(s.plan.value.steps)))
    && (s.status.AgentRunning? || s.status.AgentWaiting?)
    && s.response.None?
  }

  ghost predicate Going(setup: Setup, s: State) {
    Live(setup, s) && s.error.None? && s.status.AgentRunning?
  }

  predicate Decided(s: State) {
    && s.plan.Some? && s.plannerDecision.Some? && ValidDecision(s.plannerDecision.value)
    && s.waitingRequest == s.plannerDecision.value.clarification
    && s.pendingAction == s.plannerDecision.value.nextAction
    && (s.pendingAction.Some? ==> s.pendingAction.value.actionId in s.actionSteps)
    && (if s.plannerDecision.value.kind.Clarify? then s.status.AgentWaiting? else s.status.AgentRunning?)
    && s.budget.toolCalls < s.budget.agentSteps
  }

  ghost predicate Ready(setup: Setup, node: Node, s: State) {
    match node
    case InitializeRun => s == INITIAL
    case PlanOrReplan => Live(setup, s) && (s.error.None? ==> s.status.AgentRunning?)
    case GuardDecision => Live(setup, s) && (s.error.None? ==> Decided(s))
    case ExecuteTool =>
      && Going(setup, s) && s.plan.Some? && s.budget.toolCalls < s.budget.agentSteps
      && s.pendingAction.Some? && s.pendingAction.value.actionId in s.actionSteps
    case ObserveResult =>
      && Going(setup, s) && s.plan.Some? && s.pendingObservation.Some?
      && ValidObservation(s.pendingObservation.value) && s.pendingObservation.value.actionId in s.actionSteps
    case EvaluateProgress => Going(setup, s) && s.plan.Some? && s.observations != []
    case RequestInput => Live(setup, s) && s.error.None? && s.status.AgentWaiting? && s.waitingRequest.Some?
    case ValidateAnswer => Going(setup, s) && s.draft.Some?
    case Fail => s.error.Some? && s.response.None? && !IsTerminalStatus(s.status) && BudgetChain(s.budget, setup.limits)
    case _ => Going(setup, s)
  }

  ghost predicate Fits(setup: Setup, c: Config) {
    match c
    case At(node, s) => Ready(setup, node, s)
    case Paused(s) => Ready(setup, RequestInput, s)
    case Ended(s) =>
      && IsTerminalStatus(s.status) && BudgetChain(s.budget, setup.limits)
      && (s.error.None? <==> s.status.AgentCompleted?)
      && s.response.Some? && s.response.value.ok == s.error.None?
    case Crashed(s) => Going(setup, s)
  }

  /** Node executions still possible: six for each agent step left, and a position in the topology. */
  function Distance(setup: Setup, node: Node, s: State): int {
    var left := 6 * (setup.limits.maxAgentSteps - s.budget.agentSteps);
    if node.Fail? then 1
    else if s.error.Some? then (if node.GuardDecision? then 2 else 3)
    else
      match node
      case InitializeRun => left + 6
      case LoadContext => left + 5
      case PlanOrReplan => left + 4
      case GuardDecision => left + 9
      case ExecuteTool => left + 8
      case ObserveResult => left + 7
      case EvaluateProgress => left + 6
      case RequestInput => left + 5
      case SynthesizeAnswer => 5
      case ValidateAnswer => 4
      case PersistTurn => 3
      case _ => 2
  }

  function ConfigDistance(setup: Setup, c: Config): int {
    match c
    case At(node, s) => Distance(setup, node, s)
    case Paused(s) => Distance(setup, RequestInput, s)
    case _ => 0
  }

  ghost predicate StepOk(setup: Setup, node: Node, s: State, t: Turn) {
    match t
    case Finished(s', _) =>
      && Fits(setup, Landed(node, s'))
      && !Landed(node, s').Crashed?
      && ConfigDistance(setup, Landed(node, s')) < Distance(setup, node, s)
      && (node.InitializeRun? || NoLess(s.budget, s'.budget))
      && TransitionAgentStatus(s.status, s'.status).Returned?
    case Pause(_) => node.RequestInput?
    case Crash(_) => node.ObserveResult?
  }

  lemma InitializeOk(setup: Setup, s: State, env: Env)
    requires Ready(setup, InitializeRun, s)
    ensures StepOk(setup, InitializeRun, s, Initialize(setup, s, env))
    ensures var t := Initialize(setup, s, env);
            t.payloads == (if t.state.error.None? then [RunStarted] else [])
            && (t.state.error.Some? ==> t.state.status.AgentInitializing?)
            && (t.state.error.None? ==>
                  && t.state.budget.startedAt == env.now
                  && t.state.budget.deadlineAt == env.now + setup.limits.maxDurationSeconds)
  {
    hide Distinct;
  }

  // A failure leads to the node that reports it, from wherever the edges are conditional.
  lemma FailedOk(setup: Setup, node: Node, s: State, error: AgentError, payloads: seq<EventData>)
    requires Live(setup, s) && (s.error.None? || node.GuardDecision?)
    requires !node.InitializeRun? && !node.PlanOrReplan? && !node.RequestInput? && !node.Fail?
    ensures StepOk(setup, node, s, Failed(s, error, payloads))
  {
    FailedRoute(node);
    assert Landed(node, Failed(s, error, payloads).state) == At(Fail, Failed(s, error, payloads).state);
    assert Ready(setup, Fail, Failed(s, error, payloads).state);
  }

  lemma FailedRoute(node: Node)
    requires !node.PlanOrReplan? && !node.RequestInput? && !node.Fail?
    ensures Edge(node, true, Some(Fail)) == Returned(To(Fail))
  {
  }

  lemma LoadOk(setup: Setup, s: State, env: Env)
    requires Ready(setup, LoadContext, s)
    ensures StepOk(setup, LoadContext, s, Load(s, env))
  {
    if Blocked(s, env).Some? {
      FailedOk(setup, LoadContext, s, Coded(Blocked(s, env).value), []);
    } else if env.loaded.Raised? {
      FailedOk(setup, LoadContext, s, env.loaded.error, []);
    } else {
      assert Landed(LoadContext, Load(s, env).state) == At(PlanOrReplan, Load(s, env).state);
    }
  }

  lemma GuardOk(setup: Setup, s: State, env: Env)
    requires Ready(setup, GuardDecision, s)
    ensures StepOk(setup, GuardDecision, s, Guard(setup, s, env))
  {
    if s.error.Some? {
      FailedOk(setup, GuardDecision, s, s.error.value, []);
      assert Guard(setup, s, env) == Failed(s, s.error.value, []);
    } else if Blocked(s, env).Some? {
      FailedOk(setup, GuardDecision, s, Coded(Blocked(s, env).value), []);
    } else {
      var verdict := GuardPlannerDecision(s.plannerDecision.value, setup.authority.mode, s.allowedTools, setup.specs);
      if verdict.Raised? {
        FailedOk(setup, GuardDecision, s, Coded(verdict.error), []);
      } else if verdict.value.Fail? {
        FailedOk(setup, GuardDecision, s, Coded(AGENT_DECISION_INVALID), []);
      } else {
        GuardedOk(setup, s, verdict.value);
      }
    }
  }

  lemma GuardedOk(setup: Setup, s: State, route: Node)
    requires Live(setup, s) && s.error.None? && Decided(s)
    requires match s.plannerDecision.value.kind
             case Act => route.ExecuteTool? && s.pendingAction.Some?
             case Clarify => route.RequestInput?
             case Finish => route.SynthesizeAnswer?
             case GiveUp => false
    ensures StepOk(setup, GuardDecision, s, Finished(s.(nextRoute := Some(route)), []))
  {
    assert Landed(GuardDecision, s.(nextRoute := Some(route))) == At(route, s.(nextRoute := Some(route)));
  }

  lemma RequestOk(setup: Setup, s: State, env: Env, resume: Option<ResumeValue>)
    requires Ready(setup, RequestInput, s)
    ensures StepOk(setup, RequestInput, s, Request(setup, s, env, resume))
  {
    hide Distinct, UniqueIds, WithinLimits;
  }

  lemma ValidateOk(setup: Setup, s: State, env: Env)
    requires Ready(setup, ValidateAnswer, s)
    ensures StepOk(setup, ValidateAnswer, s, Validate(s, env))
  {
    hide Distinct;
    if Validate(s, env).state.error.Some? {
      FailedOk(setup, ValidateAnswer, s, Validate(s, env).state.error.value, []);
      assert Validate(s, env) == Failed(s, Validate(s, env).state.error.value, []);
    }
  }

  lemma PersistOk(setup: Setup, s: State, env: Env)
    requires Ready(setup, PersistTurn, s)
    ensures StepOk(setup, PersistTurn, s, Persist(s, env))
  {
    hide Distinct, WithinLimits, UniqueIds;
  }

  lemma FinalizeOk(setup: Setup, s: State, env: Env)
    requires Ready(setup, FinalizeRun, s)
    ensures StepOk(setup, FinalizeRun, s, Finalize(s, env))
  {
    hide Distinct, UniqueIds, WithinLimits;
  }

  lemma FailOk(setup: Setup, s: State)
    requires Ready(setup, Fail, s)
    ensures StepOk(setup, Fail, s, FailRun(s))
  {
  }

  lemma SynthesizeOk(setup: Setup, s: State, env: Env)
    requires Ready(setup, SynthesizeAnswer, s)
    ensures StepOk(setup, SynthesizeAnswer, s, Synthesize(setup, s, env))
  {
    hide UniqueIds, Distinct;
    var payloads := [AnswerSynthesizing(EvidenceIds(s.evidence))];
    if Blocked(s, env).Some? {
      FailedOk(setup, SynthesizeAnswer, s, Coded(Blocked(s, env).value), []);
    } else if setup.authority.mode.PlanMode? && s.evidence == [] {
      SynthesizedOk(setup, s, Draft([], ["Plan mode does not execute or preview datasource rows."]), s.budget,
          payloads);
    } else {
      var draw := if env.synthesisTimeLeft then Consume(s.budget, setup.limits, [ModelCalls]) else Returned(s.budget);
      ModelDrawKeepsChain(s.budget, setup.limits);
      if draw.Raised? {
        FailedOk(setup, SynthesizeAnswer, s, Coded(draw.error), payloads);
      } else if env.drafted.Raised? {
        FailedOk(setup, SynthesizeAnswer, s, env.drafted.error, payloads);
      } else {
        SynthesizedOk(setup, s, env.drafted.value, draw.value, payloads);
      }
    }
  }

  lemma SynthesizedOk(setup: Setup, s: State, draft: Draft, budget: BudgetState, payloads: seq<EventData>)
    requires Ready(setup, SynthesizeAnswer, s) && BudgetChain(budget, setup.limits) && NoLess(s.budget, budget)
    ensures StepOk(setup, SynthesizeAnswer, s,
                   Finished(s.(budget := budget, draft := Some(draft), nextRoute := Some(ValidateAnswer)), payloads))
  {
    var s' := s.(budget := budget, draft := Some(draft), nextRoute := Some(ValidateAnswer));
    assert Landed(SynthesizeAnswer, s') == At(ValidateAnswer, s');
  }

  lemma ConsumeOne(b: BudgetState, limits: RunBudget, c: Counter)
    ensures Consume(b, limits, [c]) ==
            if b.Spent(c) >= limits.Limit(c) then Raised(Exhausted(c)) else Returned(b.With(c, b.Spent(c) + 1))
  {
    assert [c][..0] == [];
  }

  lemma ConsumeTwo(b: BudgetState, limits: RunBudget, c: Counter, d: Counter)
    requires c != d
    ensures Consume(b, limits, [c, d]) ==
            if b.Spent(c) >= limits.Limit(c) then Raised(Exhausted(c))
            else if b.Spent(d) >= limits.Limit(d) then Raised(Exhausted(d))
            else Returned(b.With(c, b.Spent(c) + 1).With(d, b.Spent(d) + 1))
  {
    assert [c, d][..1] == [c];
    ConsumeOne(b, limits, c);
    WithSets(b, c, d, b.Spent(c) + 1);
  }

  lemma ToolDrawKeepsChain(b: BudgetState, limits: RunBudget, toolName: string)
    requires BudgetChain(b, limits) && b.toolCalls < b.agentSteps
    requires Consume(b, limits, CountersOf(toolName)).Returned?
    ensures BudgetChain(Consume(b, limits, CountersOf(toolName)).value, limits)
    ensures NoLess(b, Consume(b, limits, CountersOf(toolName)).value)
    ensures Consume(b, limits, CountersOf(toolName)).value.agentSteps == b.agentSteps
    ensures Consume(b, limits, CountersOf(toolName)).value.replans == b.replans
  {
    ConsumeOne(b, limits, ToolCalls);
    ConsumeTwo(b, limits, ToolCalls, QueryCompiles);
    ConsumeTwo(b, limits, ToolCalls, QueryPreviews);
    ConsumeTwo(b, limits, ToolCalls, QueryExecutes);
  }

  lemma StepDrawKeepsChain(b: BudgetState, limits: RunBudget, replanning: bool)
    requires BudgetChain(b, limits)
    ensures var draw := Consume(b, limits, if replanning then [AgentSteps, Replans] else [AgentSteps]);
            draw.Returned? ==>
              && BudgetChain(draw.value, limits) && NoLess(b, draw.value)
              && draw.value.agentSteps == b.agentSteps + 1 && draw.value.toolCalls == b.toolCalls
              && draw.value.replans == b.replans + if replanning then 1 else 0
  {
    ConsumeOne(b, limits, AgentSteps);
    ConsumeTwo(b, limits, AgentSteps, Replans);
  }

  lemma ModelDrawKeepsChain(b: BudgetState, limits: RunBudget)
    requires BudgetChain(b, limits)
    ensures var draw := Consume(b, limits, [ModelCalls]);
            draw.Returned? ==>
              && BudgetChain(draw.value, limits) && NoLess(b, draw.value)
              && draw.value.agentSteps == b.agentSteps && draw.value.toolCalls == b.toolCalls
                 && draw.value.replans == b.replans
  {
    ConsumeOne(b, limits, ModelCalls);
  }

  lemma ExecuteOk(setup: Setup, s: State, env: Env)
    requires Ready(setup, ExecuteTool, s) && EnvValid(env)
    ensures StepOk(setup, ExecuteTool, s, Execute(setup, s, env))
  {
    var t := Execute(setup, s, env);
    if t.state.error.Some? {
      assert t == Failed(s, t.state.error.value, t.payloads);
      FailedOk(setup, ExecuteTool, s, t.state.error.value, t.payloads);
    } else {
      ToolDrawKeepsChain(s.budget, setup.limits, s.pendingAction.value.toolName);
      assert Landed(ExecuteTool, t.state) == At(ObserveResult, t.state);
    }
  }

  /** Whatever the decision draws on, it is valid and the chain holds. */
  lemma DecideKeepsChain(setup: Setup, s: State, budget: BudgetState, env: Env)
    requires BudgetChain(budget, setup.limits) && EnvValid(env) && Decide(setup, s, budget, env).Returned?
    ensures var choice := Decide(setup, s, budget, env).value;
            && DecisionOk(choice.decision)
            && BudgetChain(choice.budget, setup.limits) && NoLess(budget, choice.budget)
            && choice.budget.agentSteps == budget.agentSteps && choice.budget.toolCalls == budget.toolCalls
            && choice.budget.replans == budget.replans
  {
    ModelDrawKeepsChain(budget, setup.limits);
    if env.resolverCallsModel && Consume(budget, setup.limits, [ModelCalls]).Returned? {
      ModelDrawKeepsChain(Consume(budget, setup.limits, [ModelCalls]).value, setup.limits);
    }
  }

  lemma PlannedOk(setup: Setup, s: State, d: PlannerDecision, budget: BudgetState, started: Option<nat>)
    requires Ready(setup, PlanOrReplan, s) && DecisionOk(d)
    requires started.Some? <==> d.kind.Act?
    requires started.Some? ==> started.value < |d.plan.steps|
    requires BudgetChain(budget, setup.limits) && NoLess(s.budget, budget)
    requires budget.agentSteps == s.budget.agentSteps + 1 && budget.toolCalls == s.budget.toolCalls
    ensures StepOk(setup, PlanOrReplan, s, Planned(s, d, budget, started))
  {
    var t := Planned(s, d, budget, started);
    assert Landed(PlanOrReplan, t.state) == At(GuardDecision, t.state);
    if started.Some? {
      SameIds(d.plan.steps, t.state.plan.value.steps);
    }
    assert Live(setup, t.state);
  }

  lemma PlanOk(setup: Setup, s: State, env: Env)
    requires Ready(setup, PlanOrReplan, s) && EnvValid(env)
    ensures StepOk(setup, PlanOrReplan, s, Plan(setup, s, env))
  {
    hide Distinct, UniqueIds, BudgetChain, StepOk, Planned, Consume, Decide, EnsureNodeEntry, FirstRunnable,
         FingerprintOf;
    var t := Plan(setup, s, env);
    StepDrawKeepsChain(s.budget, setup.limits, s.replanRequested);
    var draw := Consume(s.budget, setup.limits, StepCounters(s));
    if Blocked(s, env).None? && draw.Returned? && Decide(setup, s, draw.value, env).Returned? {
      DecideKeepsChain(setup, s, draw.value, env);
      var choice := Decide(setup, s, draw.value, env).value;
      var runnable := FirstRunnable(choice.decision.plan.steps);
      if t == Planned(s, choice.decision, choice.budget, None) && !choice.decision.kind.Act? {
        PlannedOk(setup, s, choice.decision, choice.budget, None);
      } else if choice.decision.kind.Act? && runnable.Some? {
        PlannedOk(setup, s, choice.decision, choice.budget, runnable);
      } else {
        PlanFailedOk(setup, s, t.state.error.value);
      }
    } else {
      PlanFailedOk(setup, s, t.state.error.value);
    }
  }

  lemma DecideIff(setup: Setup, s: State, budget: BudgetState, env: Env)
    requires budget.modelCalls <= setup.limits.maxModelCalls
    ensures Decide(setup, s, budget, env).Returned? <==>
            && DecisionOf(setup, s, env).Some?
            && budget.modelCalls + ModelCallsFor(setup, s, env) <= setup.limits.maxModelCalls
    ensures Decide(setup, s, budget, env).Returned? ==>
              Decide(setup, s, budget, env).value.decision == DecisionOf(setup, s, env).value
  {
    hide Consume;
    ConsumeOne(budget, setup.limits, ModelCalls);
    var one := budget.With(ModelCalls, budget.modelCalls + 1);
    ConsumeOne(one, setup.limits, ModelCalls);
  }

  /** The planning node announces a plan if and only if its guards pass, and then carries out the answer it got. */
  lemma PlanGoesAheadIff(setup: Setup, s: State, env: Env)
    requires s.budget.modelCalls <= setup.limits.maxModelCalls
    ensures Plan(setup, s, env).payloads != [] <==> PlanGoesAhead(setup, s, env)
    ensures PlanGoesAhead(setup, s, env) ==>
              var d := DecisionOf(setup, s, env).value;
              && (StartedStep(d).Some? ==> d.nextAction.Some?)
              && Plan(setup, s, env) == Planned(s, d, Plan(setup, s, env).state.budget, StartedStep(d))
    ensures !PlanGoesAhead(setup, s, env) ==>
              var t := Plan(setup, s, env);
              t.Finished? && t.state.error.Some? && t == Failed(s, t.state.error.value, [])
  {
    hide HasRoom, FingerprintOf, EnsureNodeEntry;
    ConsumeIffRoom(s.budget, setup.limits, StepCounters(s));
    var draw := Consume(s.budget, setup.limits, StepCounters(s));
    if draw.Returned? {
      ConsumeAdds(s.budget, setup.limits, StepCounters(s), ModelCalls);
      assert draw.value.modelCalls == s.budget.modelCalls;
      DecideIff(setup, s, draw.value, env);
      hide Decide, Consume, DecisionOf, ModelCallsFor;
    }
  }

  lemma PlanFailedOk(setup: Setup, s: State, error: AgentError)
    requires Ready(setup, PlanOrReplan, s)
    ensures StepOk(setup, PlanOrReplan, s, Failed(s, error, []))
  {
  }

  lemma ObserveOk(setup: Setup, s: State, env: Env)
    requires Ready(setup, ObserveResult, s)
    ensures StepOk(setup, ObserveResult, s, Observe(s, env))
  {
    if Blocked(s, env).Some? {
      FailedOk(setup, ObserveResult, s, Coded(Blocked(s, env).value), []);
    } else {
      var o := s.pendingObservation.value;
      var t := Observe(s, env);
      if t.Finished? {
        MergeAllMeans(s.observations, ObservationKey, [o]);
        MergeAllMeans(s.artifacts, ArtifactKey, o.artifactRefs);
        MergeAllMeans(s.evidence, EvidenceKey, o.evidenceRefs);
        SameIds(s.plan.value.steps, t.state.plan.value.steps);
        assert o in t.state.observations;
        assert Landed(ObserveResult, t.state) == At(EvaluateProgress, t.state);
      }
    }
  }

  lemma EvaluatedOk(setup: Setup, s: State, d: EvaluationDecision, budget: BudgetState)
    requires Ready(setup, EvaluateProgress, s) && ValidEvaluation(d)
    requires BudgetChain(budget, setup.limits) && NoLess(s.budget, budget) && budget.agentSteps == s.budget.agentSteps
    ensures StepOk(setup, EvaluateProgress, s, Evaluated(s, d, budget))
  {
    var t := Evaluated(s, d, budget);
    assert Landed(EvaluateProgress, t.state) == At(RouteOf(d.kind), t.state);
  }

  lemma EvaluateOk(setup: Setup, s: State, env: Env)
    requires Ready(setup, EvaluateProgress, s)
    ensures StepOk(setup, EvaluateProgress, s, Evaluate(setup, s, env))
    ensures Evaluate(setup, s, env).state.budget == s.budget
  {
    NoModelCallNeeded(s.plan.value, setup.authority, setup.runId, s.observations, s.artifacts, s.evidence);
    var d := ProgressDecision(s.plan.value, setup.authority, setup.runId, s.observations, s.artifacts, s.evidence);
    if Blocked(s, env).Some? {
      FailedOk(setup, EvaluateProgress, s, Coded(Blocked(s, env).value), []);
    } else if env.evaluationInterrupted.Some? {
      FailedOk(setup, EvaluateProgress, s, env.evaluationInterrupted.value, []);
    } else {
      EvaluatedOk(setup, s, d.value, s.budget);
    }
  }

  lemma NodeOk(setup: Setup, node: Node, s: State, env: Env, resume: Option<ResumeValue>)
    requires Ready(setup, node, s) && EnvValid(env)
    ensures StepOk(setup, node, s, RunNode(setup, node, s, env, resume))
  {
    hide RunNode, StepOk;
    if node in {InitializeRun, LoadContext, PlanOrReplan, GuardDecision} {
      EarlyNodeOk(setup, node, s, env);
    } else if node in {ExecuteTool, ObserveResult, EvaluateProgress, RequestInput} {
      MiddleNodeOk(setup, node, s, env, resume);
    } else {
      LateNodeOk(setup, node, s, env);
    }
  }

  lemma EarlyNodeOk(setup: Setup, node: Node, s: State, env: Env)
    requires Ready(setup, node, s) && EnvValid(env) && node in {InitializeRun, LoadContext, PlanOrReplan, GuardDecision}
    ensures forall resume :: StepOk(setup, node, s, RunNode(setup, node, s, env, resume))
  {
    hide Initialize, Load, Plan, Guard, Execute, Observe, Evaluate, Request, Synthesize, Validate, Persist, Finalize,
         FailRun, StepOk;
    match node
    case InitializeRun => InitializeOk(setup, s, env);
    case LoadContext => LoadOk(setup, s, env);
    case PlanOrReplan => PlanOk(setup, s, env);
    case GuardDecision => GuardOk(setup, s, env);
  }

  lemma MiddleNodeOk(setup: Setup, node: Node, s: State, env: Env, resume: Option<ResumeValue>)
    requires Ready(setup, node, s) && EnvValid(env)
             && node in {ExecuteTool, ObserveResult, EvaluateProgress, RequestInput}
    ensures StepOk(setup, node, s, RunNode(setup, node, s, env, resume))
  {
    hide Initialize, Load, Plan, Guard, Execute, Observe, Evaluate, Request, Synthesize, Validate, Persist, Finalize,
         FailRun, StepOk;
    match node
    case ExecuteTool => ExecuteOk(setup, s, env);
    case ObserveResult => ObserveOk(setup, s, env);
    case EvaluateProgress => EvaluateOk(setup, s, env);
    case RequestInput => RequestOk(setup, s, env, resume);
  }

  lemma LateNodeOk(setup: Setup, node: Node, s: State, env: Env)
    requires Ready(setup, node, s) && node in {SynthesizeAnswer, ValidateAnswer, PersistTurn, FinalizeRun, Fail}
    ensures forall resume :: StepOk(setup, node, s, RunNode(setup, node, s, env, resume))
  {
    hide Initialize, Load, Plan, Guard, Execute, Observe, Evaluate, Request, Synthesize, Validate, Persist, Finalize,
         FailRun, StepOk;
    match node
    case SynthesizeAnswer => SynthesizeOk(setup, s, env);
    case ValidateAnswer => ValidateOk(setup, s, env);
    case PersistTurn => PersistOk(setup, s, env);
    case FinalizeRun => FinalizeOk(setup, s, env);
    case Fail => FailOk(setup, s);
  }

  lemma MoveOk(setup: Setup, c: Config, m: Move)
    requires Fits(setup, c) && EnvValid(m.env) && Enabled(c, m)
    ensures StepOk(setup, NodeOf(c), c.state, TurnOf(setup, c, m))
    ensures Fits(setup, Next(setup, c, m))
  {
    hide RunNode;
    NodeOk(setup, NodeOf(c), c.state, m.env, if m.Resume? then Some(m.value) else None);
  }

  lemma {:induction false} ReachFits(setup: Setup, moves: seq<Move>)
    requires MovesValid(moves)
    ensures Fits(setup, Reach(setup, moves))
  {
    hide TurnOf;
    if moves != [] {
      var init, m := moves[..|moves| - 1], moves[|moves| - 1];
      assert m in moves && forall x | x in init :: x in moves;
      ReachFits(setup, init);
      if Enabled(Reach(setup, init), m) {
        MoveOk(setup, Reach(setup, init), m);
      }
    }
  }

  // ---- termination ----

  function RecursionLimit(limits: RunBudget): nat {
    12 + limits.maxAgentSteps * 6 + limits.maxReplans * 2
  }

  lemma MoveCountsDown(setup: Setup, c: Config, m: Move)
    requires Fits(setup, c) && EnvValid(m.env)
    ensures Counted(setup, c, m) + ConfigDistance(setup, Next(setup, c, m)) <= ConfigDistance(setup, c)
  {
    hide RunNode;
    if Enabled(c, m) {
      MoveOk(setup, c, m);
      DistanceIsNat(setup, c);
    }
  }

  lemma {:induction false} DistanceCountsDown(setup: Setup, moves: seq<Move>, more: seq<Move>)
    requires MovesValid(moves) && MovesValid(more)
    ensures Completions(setup, moves + more) - Completions(setup, moves)
            + ConfigDistance(setup, Reach(setup, moves + more))
            <= ConfigDistance(setup, Reach(setup, moves))
    decreases |more|
  {
    hide Next, Fits, Counted, ConfigDistance;
    if more == [] {
      assert moves + more == moves;
    } else {
      var init, m := more[..|more| - 1], more[|more| - 1];
      assert m in more && forall x | x in init :: x in more;
      DistanceCountsDown(setup, moves, init);
      var all := moves + more;
      assert all[..|all| - 1] == moves + init && all[|all| - 1] == m;
      assert MovesValid(moves + init);
      ReachFits(setup, moves + init);
      MoveCountsDown(setup, Reach(setup, moves + init), m);
    }
  }

  lemma DistanceIsNat(setup: Setup, c: Config)
    requires Fits(setup, c)
    ensures 0 <= ConfigDistance(setup, c)
  {
  }

  /** Over all its legs a run completes at most six nodes for each agent step it may take, and six more. */
  lemma RunIsBounded(setup: Setup, moves: seq<Move>)
    requires MovesValid(moves)
    ensures Completions(setup, moves) <= 6 * setup.limits.maxAgentSteps + 6
  {
    DistanceCountsDown(setup, [], moves);
    assert [] + moves == moves;
    ReachFits(setup, moves);
    DistanceIsNat(setup, Reach(setup, moves));
  }

  /** A leg: every attempt but the last leaves the run standing before a node. */
  ghost predicate OneLeg(setup: Setup, before: seq<Move>, leg: seq<Move>) {
    && (forall k | 0 <= k < |leg| :: Enabled(Reach(setup, before + leg[..k]), leg[k]))
    && (forall k | 0 < k < |leg| :: Reach(setup, before + leg[..k]).At?)
  }

  lemma Snoc(setup: Setup, moves: seq<Move>, m: Move)
    ensures Reach(setup, moves + [m]) == Next(setup, Reach(setup, moves), m)
    ensures Completions(setup, moves + [m]) == Completions(setup, moves) + Counted(setup, Reach(setup, moves), m)
  {
    assert (moves + [m])[..|moves|] == moves;
  }

  lemma AtMeansCounted(setup: Setup, c: Config, m: Move)
    requires Enabled(c, m) && Next(setup, c, m).At?
    ensures Counted(setup, c, m) == 1
  {
  }

  lemma {:induction false} LegCompletes(setup: Setup, before: seq<Move>, leg: seq<Move>, k: nat)
    requires OneLeg(setup, before, leg) && k < |leg|
    ensures Completions(setup, before + leg[..k]) == Completions(setup, before) + k
  {
    hide Reach, Completions, Next, TurnOf;
    if k == 0 {
      assert before + leg[..0] == before;
    } else {
      LegCompletes(setup, before, leg, k - 1);
      var shorter := before + leg[..k - 1];
      assert before + leg[..k] == shorter + [leg[k - 1]];
      Snoc(setup, shorter, leg[k - 1]);
      AtMeansCounted(setup, Reach(setup, shorter), leg[k - 1]);
    }
  }

  /** Every leg of every run ends inside the recursion limit the graph is compiled with. */
  lemma LegFitsRecursionLimit(setup: Setup, before: seq<Move>, leg: seq<Move>)
    requires MovesValid(before + leg) && OneLeg(setup, before, leg)
    ensures |leg| <= 6 * setup.limits.maxAgentSteps + 7 < RecursionLimit(setup.limits)
  {
    if leg != [] {
      var k := |leg| - 1;
      LegCompletes(setup, before, leg, k);
      forall m | m in before + leg[..k] ensures EnvValid(m.env) {
        assert m in before + leg;
      }
      RunIsBounded(setup, before + leg[..k]);
    }
  }

  // ---- routing, errors, status, budget ----

  /** From every reachable state, whatever the node does, the router that follows finds an allowed route. */
  lemma RoutingNeverRaises(setup: Setup, moves: seq<Move>, m: Move)
    requires MovesValid(moves) && EnvValid(m.env) && Enabled(Reach(setup, moves), m)
    ensures var c := Reach(setup, moves);
            var t := TurnOf(setup, c, m);
            t.Finished? ==> Edge(NodeOf(c), t.state.error.Some?, t.state.nextRoute).Returned?
  {
    ReachFits(setup, moves);
    MoveOk(setup, Reach(setup, moves), m);
  }

  /** On the way to `fail`, or ended there. */
  predicate Failing(c: Config) {
    && !c.state.status.AgentCompleted? && !c.Paused? && !c.Crashed?
    && (c.At? ==> c.node in {PlanOrReplan, GuardDecision, Fail})
    && (c.Ended? ==> c.state.response.Some? && !c.state.response.value.ok)
  }

  lemma ErrorMeansFailing(setup: Setup, c: Config)
    requires Fits(setup, c) && c.state.error.Some?
    ensures Failing(c)
  {
  }

  /** An error, once set, is never cleared; the run can only walk to `fail` and end as failed or cancelled. */
  lemma {:induction false} ErrorLeadsToFail(setup: Setup, moves: seq<Move>, more: seq<Move>)
    requires MovesValid(moves) && MovesValid(more) && Reach(setup, moves).state.error.Some?
    ensures Reach(setup, moves + more).state.error.Some? && Failing(Reach(setup, moves + more))
    decreases |more|
  {
    hide Next, Fits, Failing;
    assert MovesValid(moves + more);
    ReachFits(setup, moves + more);
    if more == [] {
      assert moves + more == moves;
    } else {
      var init, m := more[..|more| - 1], more[|more| - 1];
      assert forall x | x in init :: x in more;
      ErrorLeadsToFail(setup, moves, init);
      var all := moves + more;
      assert all[..|all| - 1] == moves + init && all[|all| - 1] == m;
      assert MovesValid(moves + init);
      ReachFits(setup, moves + init);
      ErrorStays(setup, Reach(setup, moves + init), m);
    }
    ErrorMeansFailing(setup, Reach(setup, moves + more));
  }

  lemma ErrorStays(setup: Setup, c: Config, m: Move)
    requires Fits(setup, c) && c.state.error.Some?
    ensures Next(setup, c, m).state.error.Some?
  {
  }

  function Statuses(setup: Setup, moves: seq<Move>): seq<AgentStatus> {
    if moves == [] then [AgentInitializing]
    else Statuses(setup, moves[..|moves| - 1]) + [Reach(setup, moves).state.status]
  }

  /** Every status a run takes on is a transition of the table; hence an ended run stays as it ended. */
  lemma {:induction false} StatusesAreLawful(setup: Setup, moves: seq<Move>)
    requires MovesValid(moves)
    ensures |Statuses(setup, moves)| == |moves| + 1
    ensures Statuses(setup, moves)[|moves|] == Reach(setup, moves).state.status
    ensures LawfulPath(Statuses(setup, moves))
  {
    hide RunNode;
    if moves != [] {
      var init, m := moves[..|moves| - 1], moves[|moves| - 1];
      assert m in moves && forall x | x in init :: x in moves;
      StatusesAreLawful(setup, init);
      ReachFits(setup, init);
      if Enabled(Reach(setup, init), m) {
        MoveOk(setup, Reach(setup, init), m);
      }
      LawfulSnoc(Statuses(setup, init), Reach(setup, moves).state.status);
    }
  }

  lemma LawfulSnoc(path: seq<AgentStatus>, status: AgentStatus)
    requires LawfulPath(path) && path != [] && TransitionAgentStatus(path[|path| - 1], status).Returned?
    ensures LawfulPath(path + [status])
  {
    var longer := path + [status];
    forall i: nat | i + 1 < |longer| ensures TransitionAgentStatus(longer[i], longer[i + 1]).Returned? {
      if i + 1 < |path| {
        assert TransitionAgentStatus(path[i], path[i + 1]).Returned?;
      }
    }
  }

  lemma MoveKeepsBudget(setup: Setup, c: Config, m: Move)
    requires Fits(setup, c) && EnvValid(m.env) && !c.state.status.AgentInitializing?
    ensures !Next(setup, c, m).state.status.AgentInitializing?
    ensures NoLess(c.state.budget, Next(setup, c, m).state.budget)
  {
    hide RunNode, Ready, StepOk;
    if Enabled(c, m) {
      MoveOk(setup, c, m);
      TurnKeepsBudget(setup, NodeOf(c), c.state, TurnOf(setup, c, m));
    }
  }

  lemma TurnKeepsBudget(setup: Setup, node: Node, s: State, t: Turn)
    requires Ready(setup, node, s) && StepOk(setup, node, s, t) && !s.status.AgentInitializing?
    ensures t.Finished? ==> !t.state.status.AgentInitializing? && NoLess(s.budget, t.state.budget)
  {
  }

  /** In every reachable state the counters form a chain within their limits, and none ever goes down. */
  lemma {:induction false} BudgetsOnlyGrow(setup: Setup, moves: seq<Move>, more: seq<Move>)
    requires MovesValid(moves) && MovesValid(more)
    ensures BudgetChain(Reach(setup, moves + more).state.budget, setup.limits)
    ensures !Reach(setup, moves).state.status.AgentInitializing? ==>
              && !Reach(setup, moves + more).state.status.AgentInitializing?
              && NoLess(Reach(setup, moves).state.budget, Reach(setup, moves + more).state.budget)
    decreases |more|
  {
    hide Next, Fits, BudgetChain;
    assert MovesValid(moves + more);
    ReachFits(setup, moves + more);
    FitsChain(setup, Reach(setup, moves + more));
    if more == [] {
      assert moves + more == moves;
    } else {
      var init, m := more[..|more| - 1], more[|more| - 1];
      assert m in more && forall x | x in init :: x in more;
      BudgetsOnlyGrow(setup, moves, init);
      assert moves + more == (moves + init) + [m];
      Snoc(setup, moves + init, m);
      assert MovesValid(moves + init);
      ReachFits(setup, moves + init);
      if !Reach(setup, moves).state.status.AgentInitializing? {
        MoveKeepsBudget(setup, Reach(setup, moves + init), m);
      }
    }
  }

  lemma FitsChain(setup: Setup, c: Config)
    requires Fits(setup, c)
    ensures BudgetChain(c.state.budget, setup.limits)
  {
  }

  // ---- evaluation ----

  /** Which node follows a verdict, and with what state: `over` says that no step is left. */
  ghost predicate FollowsVerdict(setup: Setup, s: State, next: Config)
    requires s.observations != [] && s.plan.Some?
  {
    var last := s.observations[|s.observations| - 1];
    var fits := Consistent(setup.authority, setup.runId, s.artifacts, s.evidence);
    var over := forall step | step in s.plan.value.steps :: step.status.StepCompleted? || step.status.StepSkipped?;
    && next.At? && next.state.plan == s.plan && next.state.waitingRequest.None?
    && (next.node.Fail? <==> if last.error.Some? then !last.error.value.retryable else !fits)
    && (next.node.SynthesizeAnswer? <==>
          last.error.None? && fits && !Unusable(last) && s.evidence != [] && over)
    && (next.node.PlanOrReplan? && next.state.replanRequested <==>
          if last.error.Some? then last.error.value.retryable else fits && Unusable(last))
    && (next.node.PlanOrReplan? && !next.state.replanRequested <==>
          last.error.None? && fits && !Unusable(last) && (s.evidence == [] || !over))
    && next.state.error == if next.node.Fail? then Some(Coded(AGENT_EVIDENCE_INSUFFICIENT)) else None
  }

  /**
   * Every evaluation of a reachable run is decided without a model and charges nothing. A node that is
   * stopped or interrupted fails with that error. Otherwise the run fails for lack of evidence exactly
   * after an error that cannot be retried, or when an artifact or evidence is not of this run and its
   * authority; it replans exactly after an error that can be retried, or an unusable result; it goes to
   * its answer exactly when there is evidence and no step is left; and it continues in all other cases.
   */
  lemma EvaluationIsDeterministic(setup: Setup, moves: seq<Move>, m: Move)
    requires MovesValid(moves) && EnvValid(m.env)
    requires Reach(setup, moves).At? && Reach(setup, moves).node.EvaluateProgress? && m.Advance?
    ensures var s := Reach(setup, moves).state;
            var next := Next(setup, Reach(setup, moves), m);
            && s.observations != [] && s.plan.Some? && next.state.budget == s.budget
            && if Blocked(s, m.env).Some? then next == At(Fail, Failed(s, Coded(Blocked(s, m.env).value), []).state)
               else if m.env.evaluationInterrupted.Some?
               then next == At(Fail, Failed(s, m.env.evaluationInterrupted.value, []).state)
               else FollowsVerdict(setup, s, next)
  {
    ReachFits(setup, moves);
    EvaluationStep(setup, Reach(setup, moves).state, m);
  }

  lemma EvaluationStep(setup: Setup, s: State, m: Move)
    requires Ready(setup, EvaluateProgress, s) && m.Advance?
    ensures var next := Next(setup, At(EvaluateProgress, s), m);
            && next.state.budget == s.budget
            && if Blocked(s, m.env).Some? then next == At(Fail, Failed(s, Coded(Blocked(s, m.env).value), []).state)
               else if m.env.evaluationInterrupted.Some?
               then next == At(Fail, Failed(s, m.env.evaluationInterrupted.value, []).state)
               else FollowsVerdict(setup, s, next)
  {
    hide ProgressDecision, Consistent, Unusable, EnsureNodeEntry;
    VerdictIff(s.plan.value, setup.authority, setup.runId, s.observations, s.artifacts, s.evidence);
    var d := ProgressDecision(s.plan.value, setup.authority, setup.runId, s.observations, s.artifacts,
        s.evidence).value;
    if Blocked(s, m.env).None? && m.env.evaluationInterrupted.None? {
      assert Evaluate(setup, s, m.env) == Evaluated(s, d, s.budget);
      EvaluatedLands(s, d);
    } else {
      var error := if Blocked(s, m.env).Some? then Coded(Blocked(s, m.env).value)
          else m.env.evaluationInterrupted.value;
      assert Evaluate(setup, s, m.env) == Failed(s, error, []);
      FailedRoute(EvaluateProgress);
    }
  }

  lemma EvaluatedLands(s: State, d: EvaluationDecision)
    ensures Landed(EvaluateProgress, Evaluated(s, d, s.budget).state)
            == At(RouteOf(d.kind), Evaluated(s, d, s.budget).state)
  {
  }
}
