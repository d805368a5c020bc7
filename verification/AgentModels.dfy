/**
 * The frozen value types of the analysis agent: plans, decisions, observations,
 * artifacts, evidence and the events a run emits.
 */
module AgentModels {
  import opened Outcomes

  datatype ErrorCode =
    | INTERNAL_ERROR
    | CANCELLED
    | DEADLINE_EXCEEDED
    | ACCESS_DENIED
    | AGENT_DECISION_INVALID
    | AGENT_ACTION_NOT_ALLOWED
    | AGENT_BUDGET_EXCEEDED
    | AGENT_MAX_STEPS_EXCEEDED
    | AGENT_EVIDENCE_INSUFFICIENT
    | AGENT_RESPONSE_UNGROUNDED
    | AGENT_CLARIFICATION_LOOP
    | AGENT_INTERRUPT_STALE
    | OTHER_ERROR(name: string)

  /** The code's value, as it appears in texts. */
  function CodeName(c: ErrorCode): string {
    match c
    case INTERNAL_ERROR => "INTERNAL_ERROR"
    case CANCELLED => "CANCELLED"
    case DEADLINE_EXCEEDED => "DEADLINE_EXCEEDED"
    case ACCESS_DENIED => "ACCESS_DENIED"
    case AGENT_DECISION_INVALID => "AGENT_DECISION_INVALID"
    case AGENT_ACTION_NOT_ALLOWED => "AGENT_ACTION_NOT_ALLOWED"
    case AGENT_BUDGET_EXCEEDED => "AGENT_BUDGET_EXCEEDED"
    case AGENT_MAX_STEPS_EXCEEDED => "AGENT_MAX_STEPS_EXCEEDED"
    case AGENT_EVIDENCE_INSUFFICIENT => "AGENT_EVIDENCE_INSUFFICIENT"
    case AGENT_RESPONSE_UNGROUNDED => "AGENT_RESPONSE_UNGROUNDED"
    case AGENT_CLARIFICATION_LOOP => "AGENT_CLARIFICATION_LOOP"
    case AGENT_INTERRUPT_STALE => "AGENT_INTERRUPT_STALE"
    case OTHER_ERROR(name) => name
  }

  datatype AgentError = AgentError(code: ErrorCode, retryable: bool)

  datatype AgentMode = PlanMode | PreviewMode | ExecuteMode

  // ---- plans ----

  datatype StepStatus = StepPending | StepRunning | StepCompleted | StepBlocked | StepSkipped

  datatype AnalysisStep = AnalysisStep(
    stepId: string,
    objective: string,
    status: StepStatus,
    dependsOn: seq<string>,
    expectedEvidence: seq<string>)

  datatype AnalysisPlan = AnalysisPlan(
    planId: string,
    revision: int,
    steps: seq<AnalysisStep>,
    completionCriteria: seq<string>)

  // ---- artifacts, evidence, observations ----

  datatype ArtifactKind = PreparedQuery | QueryPreview | QueryResult | OtherArtifact(name: string)

  datatype ArtifactRef = ArtifactRef(
    artifactId: string,
    runId: string,
    kind: ArtifactKind,
    digest: string,
    schemaDigest: Option<string>,
    rowCount: Option<nat>)

  datatype EvidenceRef = EvidenceRef(
    evidenceId: string,
    claimKey: string,
    artifactId: string,
    pins: SourcePins,
    schemaFingerprint: string,
    resultDigest: string)

  datatype SourcePins = SourcePins(sourceId: string, sourceVersion: int, bindingId: string, bindingVersion: int)

  datatype Json =
    | JNull
    | JBool(b: bool)
    | JText(t: string)
    | JInt(i: int)
    | JFloat(finite: bool)
    | JList(items: seq<Json>)
    | JDict(members: seq<(string, Json)>)

  datatype Observation = Observation(
    observationId: string,
    actionId: string,
    toolName: string,
    succeeded: bool,
    summary: string,
    artifactRefs: seq<ArtifactRef>,
    evidenceRefs: seq<EvidenceRef>,
    safePreview: seq<Json>,
    error: Option<AgentError>)

  datatype DatasetAuthority = DatasetAuthority(pins: SourcePins, schemaFingerprint: string, mode: AgentMode)

  datatype AgentStatus = AgentInitializing | AgentRunning | AgentWaiting | AgentCompleted | AgentFailed | AgentCancelled

  predicate IsTerminalStatus(s: AgentStatus) {
    s.AgentCompleted? || s.AgentFailed? || s.AgentCancelled?
  }

  // ---- budgets ----

  datatype Counter = AgentSteps | ModelCalls | ToolCalls | QueryCompiles | QueryPreviews | QueryExecutes | Replans

  datatype RunBudget = RunBudget(
    maxAgentSteps: nat,
    maxModelCalls: nat,
    maxToolCalls: nat,
    maxQueryCompiles: nat,
    maxQueryPreviews: nat,
    maxQueryExecutes: nat,
    maxReplans: nat,
    maxDurationSeconds: nat)
  {
    function Limit(c: Counter): nat {
      match c
      case AgentSteps => maxAgentSteps
      case ModelCalls => maxModelCalls
      case ToolCalls => maxToolCalls
      case QueryCompiles => maxQueryCompiles
      case QueryPreviews => maxQueryPreviews
      case QueryExecutes => maxQueryExecutes
      case Replans => maxReplans
    }
  }

  datatype BudgetState = BudgetState(
    agentSteps: nat,
    modelCalls: nat,
    toolCalls: nat,
    queryCompiles: nat,
    queryPreviews: nat,
    queryExecutes: nat,
    replans: nat,
    startedAt: int,
    deadlineAt: int)
  {
    function Spent(c: Counter): nat {
      match c
      case AgentSteps => agentSteps
      case ModelCalls => modelCalls
      case ToolCalls => toolCalls
      case QueryCompiles => queryCompiles
      case QueryPreviews => queryPreviews
      case QueryExecutes => queryExecutes
      case Replans => replans
    }

    function With(c: Counter, n: nat): BudgetState {
      match c
      case AgentSteps => this.(agentSteps := n)
      case ModelCalls => this.(modelCalls := n)
      case ToolCalls => this.(toolCalls := n)
      case QueryCompiles => this.(queryCompiles := n)
      case QueryPreviews => this.(queryPreviews := n)
      case QueryExecutes => this.(queryExecutes := n)
      case Replans => this.(replans := n)
    }
  }

  // ---- decisions ----

  datatype AgentAction = AgentAction(actionId: string, toolName: string, arguments: string)

  datatype RequestOrigin = FromPlanner | FromEvaluation | FromDatasetQuery

  datatype InputRequest = InputRequest(
    interruptId: string,
    reason: string,
    origin: RequestOrigin,
    prompt: string,
    choices: seq<string>,
    allowFreeText: bool)

  datatype DecisionKind = Act | Clarify | Finish | GiveUp

  datatype PlannerDecision = PlannerDecision(
    plan: AnalysisPlan,
    kind: DecisionKind,
    nextAction: Option<AgentAction>,
    clarification: Option<InputRequest>,
    completionSummary: Option<string>)

  datatype EvaluationKind = Continue | Replan | AskUser | Done | Abort

  datatype EvaluationDecision = EvaluationDecision(
    kind: EvaluationKind,
    evidenceSufficient: bool,
    completedStepIds: seq<string>,
    missingEvidence: seq<string>,
    contradictions: seq<string>,
    clarification: Option<InputRequest>)

  // ---- validators: the rules every constructed value has passed ----

  predicate ValidObservation(o: Observation) {
    && o.succeeded == o.error.None?
    && (forall i, j | 0 <= i < j < |o.artifactRefs| :: o.artifactRefs[i].artifactId != o.artifactRefs[j].artifactId)
    && (forall i, j | 0 <= i < j < |o.evidenceRefs| :: o.evidenceRefs[i].evidenceId != o.evidenceRefs[j].evidenceId)
    && (forall e | e in o.evidenceRefs ::
          exists a | a in o.artifactRefs :: a.artifactId == e.artifactId && a.digest == e.resultDigest)
  }

  predicate ValidDecision(d: PlannerDecision) {
    match d.kind
    case Act => d.nextAction.Some? && d.clarification.None? && d.completionSummary.None?
    case Clarify => d.clarification.Some? && d.nextAction.None? && d.completionSummary.None?
    case Finish => d.completionSummary.Some? && d.nextAction.None? && d.clarification.None?
    case GiveUp => d.nextAction.None? && d.clarification.None? && d.completionSummary.None?
  }

  predicate ValidEvaluation(d: EvaluationDecision) {
    && (d.kind.AskUser? <==> d.clarification.Some?)
    && (d.kind.Done? <==> d.evidenceSufficient)
  }

  // ---- run events ----

  datatype AgentResponse = AgentResponse(
    ok: bool,
    error: Option<AgentError>,
    analysisPlan: Option<AnalysisPlan>,
    stepSummaries: seq<(string, StepStatus)>,
    artifacts: seq<ArtifactRef>,
    evidence: seq<EvidenceRef>)

  datatype EventData =
    | RunStarted
    | Progress
    | ContextResolved
    | PlanUpdated(plan: AnalysisPlan)
    | StepStarted(stepId: string, objective: string)
    | ToolStarted(callId: string, actionId: string, toolName: string)
    | ToolCompleted(callId: string, actionId: string, succeeded: bool, artifacts: seq<ArtifactRef>,
        evidence: seq<EvidenceRef>)
    | ObservationRecorded(observationId: string, actionId: string, summary: string, artifactIds: seq<string>,
        evidenceIds: seq<string>)
    | RunWaiting(inputRequest: InputRequest)
    | RunResumed(interruptId: string)
    | AnswerSynthesizing(evidenceIds: seq<string>)
    | RunCompleted
    | RunFailed(errorCode: ErrorCode)

  /** The event's type is the constructor of its data: the contract makes the two agree. */
  datatype AgentEvent = AgentEvent(runId: string, sequence: nat, data: EventData, response: Option<AgentResponse>)

  predicate IsTerminal(d: EventData) {
    d.RunCompleted? || d.RunFailed?
  }

  predicate IsStreamClosing(d: EventData) {
    d.RunWaiting? || IsTerminal(d)
  }

  /** Exactly terminal events carry a response, whose outcome agrees with the event. */
  predicate ValidEvent(e: AgentEvent) {
    && (e.response.Some? <==> IsTerminal(e.data))
    && (e.data.RunCompleted? ==> e.response.value.ok)
    && (e.data.RunFailed? ==>
          && !e.response.value.ok
          && (e.response.value.error.Some? ==> e.response.value.error.value.code == e.data.errorCode))
  }
}
