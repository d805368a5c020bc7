/**
 * The deterministic resolver of dataset runs: it looks at what the run has produced, chooses the next
 * governed tool, and grows the plan when no step is left to carry it.
 */
module DatasetResolver {
  import opened Outcomes
  import opened AgentModels
  import opened Numerals
  import opened PlanGraph
  import opened PlanEdits
  import Graph = AnalysisGraph

  // ---- what the resolver is given ----

  /** What the wording of the question asks for. */
  datatype Question = Question(needsSemantics: bool, semanticOnly: bool)

  datatype QueryStatus = QueryReady | QueryUnclear | QueryUnsupported

  /** The logical query program, as far as the resolver reads it. */
  datatype QueryPlan = QueryPlan(status: QueryStatus, clarificationQuestion: string, outputs: seq<string>,
      program: string)

  datatype ToolArguments =
    | NoArguments
    | CompileArguments(program: string)
    | RunArguments(artifactId: string, previewRows: nat)
    | CollectArguments(artifactId: string, claimKey: string, fieldRefs: seq<string>)

  /** Case folding, digests and the JSON text of arguments are functions the resolver is handed. */
  datatype Tools = Tools(
    fold: string -> string,
    encode: ToolArguments -> string,
    planId: string -> string,
    actionId: (AnalysisPlan, string, string, ToolArguments) -> string,
    interruptId: string -> string,
    semanticRefs: seq<string>)

  // ---- steps and their wording ----

  datatype Wording = Wording(objective: string, expectedEvidence: seq<string>)

  function CanonicalToolStep(toolName: string): Wording {
    if toolName == "catalog.inspect" then Wording("Inspect the pinned dataset catalog", ["catalog artifact"])
    else if toolName == "semantic.inspect"
        then Wording("Inspect the pinned semantic binding", ["semantic definition artifact"])
    else if toolName == "query.compile" then Wording("Compile the governed query program", ["prepared query artifact"])
    else if toolName == "query.execute" then Wording("Execute the compiled governed query", ["governed query result"])
    else if toolName == "query.preview" then Wording("Preview the compiled governed query", ["governed query preview"])
    else if toolName == "evidence.collect" then
      Wording("Bind the governed result artifact to verifiable evidence", ["validated result evidence"])
    else Wording("Run governed tool " + toolName, ["governed tool output"])
  }

  function Underscored(s: string): (r: string)
    ensures |r| == |s|
  {
    seq(|s|, i requires 0 <= i < |s| => if s[i] == '.' then '_' else s[i])
  }

  function BaseId(toolName: string): string {
    if toolName == "semantic.inspect" then "inspect_semantic"
    else if toolName == "query.compile" then "compile_query"
    else if toolName == "query.execute" then "run_query"
    else if toolName == "query.preview" then "preview_query"
    else if toolName == "evidence.collect" then "bind_evidence"
    else Underscored(toolName)
  }

  // ---- a fresh step id ----

  /** The candidates in the order they are tried: the base, then the base with 2, 3, ... */
  function Candidate(base: string, n: nat): string {
    if n == 0 then base else base + "_" + Decimal(n + 1)
  }

  lemma CandidatesDiffer(base: string, m: nat, n: nat)
    requires Candidate(base, m) == Candidate(base, n)
    ensures m == n
  {
    if m != 0 && n != 0 {
      var a, b := base + "_", Candidate(base, m);
      assert b[|a|..] == Decimal(m + 1) && b[|a|..] == Decimal(n + 1);
      DecimalInjective(m + 1, n + 1);
    }
  }

  /** The first candidate not among the ids; every candidate tried takes one id out of the way. */
  function FirstFree(base: string, ids: set<string>, n: nat): string
    decreases |ids|
  {
    if Candidate(base, n) !in ids then Candidate(base, n) else FirstFree(base, ids - {Candidate(base, n)}, n + 1)
  }

  /** It is free, and it is the first that is. */
  lemma {:induction false} FirstFreeIsFree(base: string, ids: set<string>, n: nat) returns (k: nat)
    ensures k >= n && FirstFree(base, ids, n) == Candidate(base, k) && Candidate(base, k) !in ids
    ensures forall j | n <= j < k :: Candidate(base, j) in ids
    decreases |ids|
  {
    if Candidate(base, n) !in ids {
      k := n;
    } else {
      k := FirstFreeIsFree(base, ids - {Candidate(base, n)}, n + 1);
      if Candidate(base, k) == Candidate(base, n) {
        CandidatesDiffer(base, k, n);
      }
    }
  }

  method FreshStepId(base: string, stepIds: set<string>) returns (stepId: string)
    ensures stepId == FirstFree(base, stepIds, 0)
  {
    stepId := base;
    var suffix := 2;
    ghost var untried := stepIds;
    ghost var n: nat := 0;
    while stepId in stepIds
      invariant suffix == n + 2 && stepId == Candidate(base, n)
      invariant FirstFree(base, stepIds, 0) == FirstFree(base, untried, n)
      invariant untried <= stepIds
      invariant forall j | j >= n :: Candidate(base, j) in stepIds ==> Candidate(base, j) in untried
      decreases |untried|
    {
      forall j | j >= n + 1 ensures Candidate(base, j) != Candidate(base, n) {
        if Candidate(base, j) == Candidate(base, n) {
          CandidatesDiffer(base, j, n);
        }
      }
      untried := untried - {stepId};
      stepId := base + "_" + Decimal(suffix);
      suffix := suffix + 1;
      n := n + 1;
    }
  }

  // ---- plan edits ----

  function DoneInOrder(steps: seq<AnalysisStep>): (r: seq<string>)
    ensures forall d | d in r :: d in DoneIds(steps)
  {
    if steps == [] then []
    else
      var last := steps[|steps| - 1];
      assert forall d | d in DoneIds(steps[..|steps| - 1]) :: d in DoneIds(steps);
      DoneInOrder(steps[..|steps| - 1]) + if IsDone(last) then [last.stepId] else []
  }

  function IdSet(steps: seq<AnalysisStep>): set<string> {
    set s | s in steps :: s.stepId
  }

  function ToolStep(steps: seq<AnalysisStep>, toolName: string): AnalysisStep {
    AnalysisStep(
      FirstFree(BaseId(toolName), IdSet(steps), 0),
      CanonicalToolStep(toolName).objective,
      StepPending,
      DoneInOrder(steps),
      CanonicalToolStep(toolName).expectedEvidence)
  }

  const EVIDENCE_CRITERION := "Every result claim has validated evidence"

  /** The plan with one more step for the tool, after everything that is done. */
  function Appended(plan: AnalysisPlan, toolName: string): AnalysisPlan {
    AnalysisPlan(
      plan.planId,
      plan.revision + 1,
      plan.steps + [ToolStep(plan.steps, toolName)],
      if EVIDENCE_CRITERION in plan.completionCriteria then plan.completionCriteria
      else plan.completionCriteria + [EVIDENCE_CRITERION])
  }

  method AppendToolStep(plan: AnalysisPlan, toolName: string) returns (revised: AnalysisPlan)
    ensures revised == Appended(plan, toolName)
  {
    var stepId := FreshStepId(BaseId(toolName), IdSet(plan.steps));
    var wording := CanonicalToolStep(toolName);
    var step := AnalysisStep(stepId, wording.objective, StepPending, DoneInOrder(plan.steps), wording.expectedEvidence);
    var criteria := plan.completionCriteria;
    if EVIDENCE_CRITERION !in criteria {
      criteria := criteria + [EVIDENCE_CRITERION];
    }
    revised := AnalysisPlan(plan.planId, plan.revision + 1, plan.steps + [step], criteria);
  }

  function Reworded(steps: seq<AnalysisStep>, stepId: string, wording: Wording): (r: seq<AnalysisStep>)
    ensures |r| == |steps|
    ensures forall i | 0 <= i < |steps| ::
              r[i] == if steps[i].stepId == stepId
                      then steps[i].(objective := wording.objective, expectedEvidence := wording.expectedEvidence)
                          else steps[i]
  {
    seq(|steps|, i requires 0 <= i < |steps| =>
          if steps[i].stepId == stepId then steps[i].(objective := wording.objective,
              expectedEvidence := wording.expectedEvidence)
          else steps[i])
  }

  /** An act on the step at index `k`; a step with another wording is reworded, which is a new revision. */
  function Acting(tools: Tools, plan: AnalysisPlan, k: nat, toolName: string, arguments: ToolArguments): PlannerDecision
    requires k < |plan.steps|
  {
    var wording := CanonicalToolStep(toolName);
    var step := plan.steps[k];
    var revised := if step.objective == wording.objective && step.expectedEvidence == wording.expectedEvidence then plan
                   else plan.(revision := plan.revision + 1, steps := Reworded(plan.steps, step.stepId, wording));
    var action := AgentAction(tools.actionId(revised, step.stepId, toolName, arguments), toolName,
        tools.encode(arguments));
    PlannerDecision(revised, Act, Some(action), None, None)
  }

  /** An act on the chosen step, or on a step appended for it when none is left. */
  function ActingOn(
      tools: Tools, plan: AnalysisPlan, step: Option<nat>, toolName: string, arguments: ToolArguments): PlannerDecision
    requires step.Some? ==> step.value < |plan.steps|
  {
    if step.Some? then Acting(tools, plan, step.value, toolName, arguments)
    else Acting(tools, Appended(plan, toolName), |plan.steps|, toolName, arguments)
  }

  function Skipping(steps: seq<AnalysisStep>, blockedToo: bool): (r: seq<AnalysisStep>)
    ensures |r| == |steps|
    ensures forall i | 0 <= i < |steps| ::
              r[i] == if steps[i].status.StepPending? || (blockedToo && steps[i].status.StepBlocked?)
                      then steps[i].(status := StepSkipped) else steps[i]
  {
    seq(|steps|, i requires 0 <= i < |steps| =>
          if steps[i].status.StepPending? || (blockedToo && steps[i].status.StepBlocked?)
              then steps[i].(status := StepSkipped)
          else steps[i])
  }

  function Summary(withEvidence: bool): string {
    if withEvidence then "The required governed evidence has been collected."
    else "The governed query plan is ready; plan mode did not execute or preview any data."
  }

  /** With evidence, pending and blocked steps are skipped; in plan mode, only the pending ones. */
  function Finishing(plan: AnalysisPlan, withEvidence: bool): PlannerDecision {
    PlannerDecision(
      plan.(revision := plan.revision + 1, steps := Skipping(plan.steps, withEvidence)),
      Finish, None, None,
      Some(Summary(withEvidence)))
  }

  function GivingUp(plan: AnalysisPlan): PlannerDecision {
    PlannerDecision(plan, GiveUp, None, None, None)
  }

  // ---- what every decision does to the plan ----

  /** One decision: the plan as it was, or its next revision, edited within the rules and well formed if it was. */
  ghost predicate EditsOnce(plan: AnalysisPlan, d: PlannerDecision) {
    && ValidDecision(d)
    && d.plan.planId == plan.planId
    && (d.plan == plan || d.plan.revision == plan.revision + 1)
    && Edits(plan.steps, d.plan.steps)
    && (WellFormed(plan) ==> WellFormed(d.plan))
  }

  /** The step that the planning node will start is the one at index `k`, worded for the tool of the action. */
  predicate Starts(d: PlannerDecision, k: nat) {
    && d.nextAction.Some? && FirstRunnable(d.plan.steps) == Some(k)
    && d.plan.steps[k].objective == CanonicalToolStep(d.nextAction.value.toolName).objective
    && d.plan.steps[k].expectedEvidence == CanonicalToolStep(d.nextAction.value.toolName).expectedEvidence
  }

  lemma SameStatusesSameChoice(before: seq<AnalysisStep>, after: seq<AnalysisStep>)
    requires |before| == |after|
    requires forall i | 0 <= i < |before| ::
               after[i].stepId == before[i].stepId && after[i].status == before[i].status
                   && after[i].dependsOn == before[i].dependsOn
    ensures FirstRunnable(after) == FirstRunnable(before)
  {
    forall id ensures id in DoneIds(after) <==> id in DoneIds(before) {
      if id in DoneIds(after) {
        var s :| s in after && IsDone(s) && s.stepId == id;
        var i :| 0 <= i < |after| && after[i] == s;
        assert before[i] in before;
      }
      if id in DoneIds(before) {
        var s :| s in before && IsDone(s) && s.stepId == id;
        var i :| 0 <= i < |before| && before[i] == s;
        assert after[i] in after;
      }
    }
    forall i | 0 <= i < |before| ensures Runnable(after, after[i]) == Runnable(before, before[i]) {
    }
  }

  lemma ActingEdits(tools: Tools, plan: AnalysisPlan, k: nat, toolName: string, arguments: ToolArguments)
    requires Distinct(StepIds(plan.steps)) && FirstRunnable(plan.steps) == Some(k)
    ensures EditsOnce(plan, Acting(tools, plan, k, toolName, arguments))
    ensures Starts(Acting(tools, plan, k, toolName, arguments), k)
  {
    var d := Acting(tools, plan, k, toolName, arguments);
    SameIds(plan.steps, d.plan.steps);
    SameStatusesSameChoice(plan.steps, d.plan.steps);
    if WellFormed(plan) {
      RewordedIsWellFormed(plan, plan.steps[k].stepId, CanonicalToolStep(toolName));
    }
  }

  lemma RewordedIsWellFormed(plan: AnalysisPlan, stepId: string, wording: Wording)
    requires WellFormed(plan) && Distinct(wording.expectedEvidence)
    ensures WellFormed(plan.(revision := plan.revision + 1, steps := Reworded(plan.steps, stepId, wording)))
  {
    var after := Reworded(plan.steps, stepId, wording);
    forall s | s in after ensures UniqueLists(s) {
      var i :| 0 <= i < |after| && after[i] == s;
      assert UniqueLists(plan.steps[i]);
    }
  }

  lemma {:induction false} DoneIsDistinct(steps: seq<AnalysisStep>)
    requires Distinct(StepIds(steps))
    ensures Distinct(DoneInOrder(steps))
    ensures forall d | d in DoneInOrder(steps) :: d in StepIds(steps)
  {
    if steps != [] {
      var n := |steps| - 1;
      assert StepIds(steps) == StepIds(steps[..n]) + [steps[n].stepId];
      forall i, j | 0 <= i < j < n ensures StepIds(steps[..n])[i] != StepIds(steps[..n])[j] {
        assert StepIds(steps)[i] != StepIds(steps)[j];
      }
      DoneIsDistinct(steps[..n]);
      forall d | d in DoneInOrder(steps[..n]) ensures d != steps[n].stepId {
        assert d in StepIds(steps[..n]);
        var i :| 0 <= i < n && StepIds(steps[..n])[i] == d;
        assert StepIds(steps)[i] != StepIds(steps)[n];
      }
      DistinctSnoc(DoneInOrder(steps[..n]), steps[n].stepId);
    }
  }

  lemma AppendedIsWellFormed(plan: AnalysisPlan, toolName: string)
    requires WellFormed(plan) && Distinct(StepIds(plan.steps))
    ensures WellFormed(Appended(plan, toolName))
  {
    DoneIsDistinct(plan.steps);
    assert UniqueLists(ToolStep(plan.steps, toolName));
  }

  lemma FreshIsNew(steps: seq<AnalysisStep>, toolName: string)
    ensures ToolStep(steps, toolName).stepId !in StepIds(steps)
  {
    var k := FirstFreeIsFree(BaseId(toolName), IdSet(steps), 0);
    forall i | 0 <= i < |steps| ensures StepIds(steps)[i] in IdSet(steps) {
      assert steps[i] in steps;
    }
  }

  lemma AppendedEdits(plan: AnalysisPlan, toolName: string)
    requires Distinct(StepIds(plan.steps)) && FirstRunnable(plan.steps).None?
    ensures Edits(plan.steps, Appended(plan, toolName).steps)
    ensures FirstRunnable(Appended(plan, toolName).steps) == Some(|plan.steps|)
  {
    var steps := plan.steps;
    var step := ToolStep(steps, toolName);
    var longer := Appended(plan, toolName).steps;
    FreshIsNew(steps, toolName);
    hide FirstFree, BaseId, CanonicalToolStep, DoneInOrder, IdSet;
    assert StepIds(longer) == StepIds(steps) + [step.stepId];
    assert DoneIds(longer) == DoneIds(steps);
    forall i | 0 <= i < |steps| ensures !Runnable(longer, longer[i]) {
      assert !Runnable(steps, steps[i]);
    }
    assert Runnable(longer, longer[|steps|]);
  }

  lemma SkippingEdits(steps: seq<AnalysisStep>, blockedToo: bool)
    requires Distinct(StepIds(steps))
    ensures Edits(steps, Skipping(steps, blockedToo))
  {
    SameIds(steps, Skipping(steps, blockedToo));
  }

  lemma SkippingIsWellFormed(plan: AnalysisPlan, blockedToo: bool)
    requires WellFormed(plan)
    ensures WellFormed(plan.(revision := plan.revision + 1, steps := Skipping(plan.steps, blockedToo)))
  {
    var after := Skipping(plan.steps, blockedToo);
    forall s | s in after ensures UniqueLists(s) {
      var i :| 0 <= i < |after| && after[i] == s;
      assert UniqueLists(plan.steps[i]);
    }
  }

  lemma FinishingEdits(plan: AnalysisPlan, withEvidence: bool)
    requires Distinct(StepIds(plan.steps))
    ensures EditsOnce(plan, Finishing(plan, withEvidence))
  {
    hide Edits, WellFormed, Skipping, Summary;
    SkippingEdits(plan.steps, withEvidence);
    if WellFormed(plan) {
      SkippingIsWellFormed(plan, withEvidence);
    }
  }

  lemma UnchangedEdits(steps: seq<AnalysisStep>)
    requires Distinct(StepIds(steps))
    ensures Edits(steps, steps)
  {
  }

  lemma ActingOnEdits(tools: Tools, plan: AnalysisPlan, toolName: string, arguments: ToolArguments)
    requires Distinct(StepIds(plan.steps))
    ensures var step := FirstRunnable(plan.steps);
            var d := ActingOn(tools, plan, step, toolName, arguments);
            && EditsOnce(plan, d) && Starts(d, if step.Some? then step.value else |plan.steps|)
            && |d.plan.steps| == |plan.steps| + if step.Some? then 0 else 1
  {
    var step := FirstRunnable(plan.steps);
    if step.Some? {
      ActingEdits(tools, plan, step.value, toolName, arguments);
    } else {
      AppendedEdits(plan, toolName);
      if WellFormed(plan) {
        AppendedIsWellFormed(plan, toolName);
      }
      ActingEdits(tools, Appended(plan, toolName), |plan.steps|, toolName, arguments);
      assert Acting(tools, Appended(plan, toolName), |plan.steps|, toolName, arguments).plan
             == Appended(plan, toolName);
    }
  }

  // ---- the decision ----

  /** The run as the resolver sees it. */
  datatype View = View(
    plan: AnalysisPlan,
    observations: seq<Observation>,
    artifacts: seq<ArtifactRef>,
    evidence: seq<EvidenceRef>,
    queryResumed: bool,
    mode: AgentMode,
    allowed: set<string>,
    question: Question)

  /** A dataset query was clarified and the run is planning again because of it. */
  function ViewOf(s: Graph.State, mode: AgentMode, allowed: set<string>, question: Question): View
    requires s.plan.Some?
  {
    View(s.plan.value, s.observations, s.artifacts, s.evidence,
         s.replanRequested && s.turns != [] && s.turns[|s.turns| - 1].origin.FromDatasetQuery?, mode, allowed, question)
  }

  predicate LastSucceeded(v: View) {
    v.observations != [] && v.observations[|v.observations| - 1].succeeded
  }

  predicate Succeeded(v: View, toolName: string) {
    exists o | o in v.observations :: o.succeeded && o.toolName == toolName
  }

  function FirstPrepared(artifacts: seq<ArtifactRef>): (r: Option<ArtifactRef>)
    ensures r.Some? ==> r.value in artifacts && r.value.kind.PreparedQuery?
    ensures r.None? ==> forall a | a in artifacts :: !a.kind.PreparedQuery?
  {
    if artifacts == [] then None
    else if artifacts[0].kind.PreparedQuery? then Some(artifacts[0])
    else FirstPrepared(artifacts[1..])
  }

  predicate IsResult(a: ArtifactRef) {
    a.kind.QueryPreview? || a.kind.QueryResult?
  }

  function LastResult(artifacts: seq<ArtifactRef>): (r: Option<ArtifactRef>)
    ensures r.Some? ==> r.value in artifacts && IsResult(r.value)
    ensures r.None? ==> forall a | a in artifacts :: !IsResult(a)
  {
    if artifacts == [] then None
    else if IsResult(artifacts[|artifacts| - 1]) then Some(artifacts[|artifacts| - 1])
    else LastResult(artifacts[..|artifacts| - 1])
  }

  predicate IsInspection(o: Observation) {
    o.succeeded && o.toolName == "semantic.inspect"
  }

  /** The first artifact of the latest successful semantic inspection that left one. */
  function SemanticArtifact(observations: seq<Observation>): (r: Option<ArtifactRef>)
    ensures r.Some? ==> exists o | o in observations :: IsInspection(o) && r.value in o.artifactRefs
    ensures r.None? ==> forall o | o in observations && IsInspection(o) :: o.artifactRefs == []
  {
    if observations == [] then None
    else
      var last := observations[|observations| - 1];
      if IsInspection(last) && last.artifactRefs != [] then Some(last.artifactRefs[0])
      else SemanticArtifact(observations[..|observations| - 1])
  }

  predicate Evidenced(v: View, artifactId: string) {
    exists e | e in v.evidence :: e.artifactId == artifactId
  }

  predicate OccursAt(text: string, word: string, i: nat) {
    i + |word| <= |text| && text[i..i + |word|] == word
  }

  predicate Mentions(text: string, word: string) {
    exists i | 0 <= i <= |text| :: OccursAt(text, word, i)
  }

  function Objective(tools: Tools, v: View): string {
    if FirstRunnable(v.plan.steps).Some? then tools.fold(v.plan.steps[FirstRunnable(v.plan.steps).value].objective)
    else ""
  }

  predicate MentionsSemantics(text: string) {
    Mentions(text, "semantic") || Mentions(text, "binding") || Mentions(text, "logical field")
  }

  predicate WantsCatalog(tools: Tools, v: View) {
    FirstRunnable(v.plan.steps).Some? && Mentions(Objective(tools, v), "catalog") && !Succeeded(v, "catalog.inspect")
  }

  predicate WantsSemantics(tools: Tools, v: View) {
    FirstRunnable(v.plan.steps).Some? && MentionsSemantics(Objective(tools, v)) && !Succeeded(v, "semantic.inspect")
  }

  /** An act when the tool is allowed, and no way on when it is not. */
  function IfAllowed(tools: Tools, v: View, toolName: string, arguments: ToolArguments): PlannerDecision {
    if toolName !in v.allowed then GivingUp(v.plan)
    else ActingOn(tools, v.plan, FirstRunnable(v.plan.steps), toolName, arguments)
  }

  function PreviewKeys(v: View): seq<string> {
    if v.observations == [] then []
    else
      var preview := v.observations[|v.observations| - 1].safePreview;
      if preview == [] || !preview[0].JDict? then []
      else seq(|preview[0].members|, i requires 0 <= i < |preview[0].members| => preview[0].members[i].0)
  }

  function OutputRefs(query: Option<QueryPlan>): seq<string> {
    if query.None? || !query.value.status.QueryReady? then [] else query.value.outputs
  }

  function ResultArguments(v: View, query: Option<QueryPlan>, result: ArtifactRef): ToolArguments {
    var outputs := OutputRefs(query);
    var refs := if outputs == [] then PreviewKeys(v) else outputs;
    CollectArguments(
      result.artifactId,
      if |outputs| == 1 then outputs[0] else "analysis_result",
      if refs == [] then ["analysis_result"] else refs)
  }

  function Clarifying(tools: Tools, plan: AnalysisPlan, prompt: string): PlannerDecision {
    PlannerDecision(plan, Clarify, None,
                    Some(InputRequest(tools.interruptId(prompt), "clarification", FromDatasetQuery, prompt, [], true)),
                        None)
  }

  /** What to do with a logical query: compile it, ask about it, or refuse it. */
  function WithQuery(
      tools: Tools, v: View, query: QueryPlan, proposal: Option<string>): Outcome<PlannerDecision, AgentError>
  {
    match query.status
    case QueryUnsupported => Raised(AgentError(OTHER_ERROR("QUERY_UNSUPPORTED"), false))
    case QueryUnclear =>
      Returned(Clarifying(
        tools, v.plan,
        if proposal.Some? then proposal.value
        else if query.clarificationQuestion == "" then "Please clarify the requested dataset calculation."
        else query.clarificationQuestion))
    case QueryReady => Returned(IfAllowed(tools, v, "query.compile", CompileArguments(query.program)))
  }

  /** The decisions that come before any query is needed. */
  function BeforeQuery(tools: Tools, v: View): Option<PlannerDecision> {
    var semantic := SemanticArtifact(v.observations);
    if WantsCatalog(tools, v) && "catalog.inspect" in v.allowed then
      Some(ActingOn(tools, v.plan, FirstRunnable(v.plan.steps), "catalog.inspect", NoArguments))
    else if WantsSemantics(tools, v) && "semantic.inspect" in v.allowed then
      Some(ActingOn(tools, v.plan, FirstRunnable(v.plan.steps), "semantic.inspect", NoArguments))
    else if FirstPrepared(v.artifacts).Some? then None
    else if v.question.needsSemantics && semantic.None? then Some(IfAllowed(tools, v, "semantic.inspect", NoArguments))
    else if v.question.needsSemantics && !Evidenced(v, semantic.value.artifactId) then
      Some(IfAllowed(tools, v, "evidence.collect",
                     CollectArguments(semantic.value.artifactId, "semantic_definition", tools.semanticRefs)))
    else if v.question.semanticOnly && semantic.Some? && Evidenced(v, semantic.value.artifactId) then
      Some(Finishing(v.plan, true))
    else None
  }

  /** The decisions once a query is prepared: run it, bind its result, finish. */
  function AfterQuery(tools: Tools, v: View, query: Option<QueryPlan>, prepared: ArtifactRef): PlannerDecision {
    var result := LastResult(v.artifacts);
    if result.None? then
      if "query.execute" in v.allowed then IfAllowed(tools, v, "query.execute", RunArguments(prepared.artifactId, 100))
      else if "query.preview" in v.allowed
          then IfAllowed(tools, v, "query.preview", RunArguments(prepared.artifactId, 100))
      else if v.mode.PlanMode? then Finishing(v.plan, false)
      else GivingUp(v.plan)
    else if !Evidenced(v, result.value.artifactId) then
      IfAllowed(tools, v, "evidence.collect", ResultArguments(v, query, result.value))
    else Finishing(v.plan, true)
  }

  /** The decision, and the query program the resolver keeps for its next call. */
  datatype Resolution = Resolution(decision: Outcome<Option<PlannerDecision>, AgentError>, cache: Option<QueryPlan>)

  function Resolve(
      tools: Tools, cached: Option<QueryPlan>, v: View, planned: Outcome<QueryPlan, AgentError>,
      proposal: Option<string>)
    : Resolution
  {
    var cache := if v.queryResumed then None else cached;
    var prepared := FirstPrepared(v.artifacts);
    if !LastSucceeded(v) && !v.queryResumed then Resolution(Returned(None), cache)
    else if BeforeQuery(tools, v).Some? then Resolution(Returned(BeforeQuery(tools, v)), cache)
    else if prepared.Some? then Resolution(Returned(Some(AfterQuery(tools, v, cache, prepared.value))), cache)
    else
      match if cache.Some? then Returned(cache.value) else planned
      case Raised(e) => Resolution(Raised(e), cache)
      case Returned(query) =>
        match WithQuery(tools, v, query, proposal)
        case Raised(e) => Resolution(Raised(e), Some(query))
        case Returned(d) => Resolution(Returned(Some(d)), Some(query))
  }

  // ---- what every decision promises ----

  /** The index the planning node will start, by the resolver's own choice. */
  function Chosen(v: View): nat {
    if FirstRunnable(v.plan.steps).Some? then FirstRunnable(v.plan.steps).value else |v.plan.steps|
  }

  /**
   * A decision within the rules: one edit, an allowed tool, the chosen step started, and one appended
   * only for an act.
   */
  ghost predicate Sound(v: View, d: PlannerDecision) {
    && EditsOnce(v.plan, d)
    && (d.kind.Act? ==> Starts(d, Chosen(v)) && d.nextAction.value.toolName in v.allowed)
    && |d.plan.steps| == |v.plan.steps| + if d.kind.Act? && FirstRunnable(v.plan.steps).None? then 1 else 0
  }

  lemma IfAllowedIsSound(tools: Tools, v: View, toolName: string, arguments: ToolArguments)
    requires Distinct(StepIds(v.plan.steps))
    ensures Sound(v, IfAllowed(tools, v, toolName, arguments))
  {
    UnchangedEdits(v.plan.steps);
    ActingOnEdits(tools, v.plan, toolName, arguments);
  }

  lemma BeforeQueryIsSound(tools: Tools, v: View)
    requires Distinct(StepIds(v.plan.steps)) && BeforeQuery(tools, v).Some?
    ensures Sound(v, BeforeQuery(tools, v).value)
  {
    var semantic := SemanticArtifact(v.observations);
    if WantsCatalog(tools, v) && "catalog.inspect" in v.allowed {
      IfAllowedIsSound(tools, v, "catalog.inspect", NoArguments);
    } else if (WantsSemantics(tools, v) && "semantic.inspect" in v.allowed) || semantic.None? {
      IfAllowedIsSound(tools, v, "semantic.inspect", NoArguments);
    } else {
      IfAllowedIsSound(tools, v, "evidence.collect",
                       CollectArguments(semantic.value.artifactId, "semantic_definition", tools.semanticRefs));
      FinishingEdits(v.plan, true);
    }
  }

  lemma WithQueryIsSound(tools: Tools, v: View, query: QueryPlan, proposal: Option<string>)
    requires Distinct(StepIds(v.plan.steps)) && WithQuery(tools, v, query, proposal).Returned?
    ensures Sound(v, WithQuery(tools, v, query, proposal).value)
  {
    UnchangedEdits(v.plan.steps);
    IfAllowedIsSound(tools, v, "query.compile", CompileArguments(query.program));
  }

  lemma AfterQueryIsSound(tools: Tools, v: View, query: Option<QueryPlan>, prepared: ArtifactRef)
    requires Distinct(StepIds(v.plan.steps))
    ensures Sound(v, AfterQuery(tools, v, query, prepared))
  {
    var result := LastResult(v.artifacts);
    UnchangedEdits(v.plan.steps);
    FinishingEdits(v.plan, true);
    FinishingEdits(v.plan, false);
    if result.Some? {
      IfAllowedIsSound(tools, v, "evidence.collect", ResultArguments(v, query, result.value));
    } else {
      IfAllowedIsSound(tools, v, "query.execute", RunArguments(prepared.artifactId, 100));
      IfAllowedIsSound(tools, v, "query.preview", RunArguments(prepared.artifactId, 100));
    }
  }

  /**
   * Every decision leaves the plan as it is or makes its next revision, by edits that keep ids unique
   * and the step graph acyclic; an act uses an allowed tool, and the step the planning node will start
   * is the one the resolver chose, or the one it appended.
   */
  lemma ResolveIsSound(
      tools: Tools, cached: Option<QueryPlan>, v: View, planned: Outcome<QueryPlan, AgentError>,
      proposal: Option<string>)
    requires Distinct(StepIds(v.plan.steps))
    ensures var r := Resolve(tools, cached, v, planned, proposal).decision;
            r.Returned? && r.value.Some? ==>
              && Sound(v, r.value.value)
              && (ValidPlan(v.plan) ==> ValidPlan(r.value.value.plan))
  {
    var r := Resolve(tools, cached, v, planned, proposal).decision;
    if r.Returned? && r.value.Some? {
      var d := r.value.value;
      var prepared := FirstPrepared(v.artifacts);
      var cache := if v.queryResumed then None else cached;
      if BeforeQuery(tools, v).Some? {
        BeforeQueryIsSound(tools, v);
      } else if prepared.Some? {
        AfterQueryIsSound(tools, v, cache, prepared.value);
      } else {
        WithQueryIsSound(tools, v, if cache.Some? then cache.value else planned.value, proposal);
      }
      if AcceptablePlan(v.plan.steps) {
        EditsKeepAcceptable(v.plan.steps, d.plan.steps);
      }
    }
  }

  /** The semantic binding is inspected only while no inspection has left an artifact. */
  lemma InspectsOnce(
    tools: Tools, cached: Option<QueryPlan>, v: View, planned: Outcome<QueryPlan, AgentError>, proposal: Option<string>)
    ensures var r := Resolve(tools, cached, v, planned, proposal).decision;
            r.Returned? && r.value.Some? && r.value.value.nextAction.Some?
            && r.value.value.nextAction.value.toolName == "semantic.inspect" ==>
              SemanticArtifact(v.observations).None?
  {
    hide Mentions, MentionsSemantics, Appended, Reworded, CanonicalToolStep, ResultArguments, Skipping,
         SemanticArtifact;
    assert SemanticArtifact(v.observations).Some? ==> exists o | o in v.observations :: IsInspection(o);
  }

  /** The resolver leaves the choice open only after a failed or missing result, outside a clarified query. */
  lemma LeavesOpenIff(
    tools: Tools, cached: Option<QueryPlan>, v: View, planned: Outcome<QueryPlan, AgentError>, proposal: Option<string>)
    ensures Resolve(tools, cached, v, planned, proposal).decision == Returned(None) <==>
               !LastSucceeded(v) && !v.queryResumed
  {
  }

  // ---- what a decision needs ----

  predicate RunsData(d: PlannerDecision) {
    d.nextAction.Some? && (d.nextAction.value.toolName == "query.execute"
        || d.nextAction.value.toolName == "query.preview")
  }

  /** An artifact the answer may rest on: a query result, or what a semantic inspection left. */
  predicate Answers(v: View, a: ArtifactRef) {
    (a in v.artifacts && IsResult(a)) || (exists o | o in v.observations :: IsInspection(o) && a in o.artifactRefs)
  }

  /**
   * Data is read only through a prepared query that has no result yet. A run is finished only with an
   * answering artifact bound to evidence, or in plan mode with the query prepared and no tool to run it.
   */
  lemma DecisionsAreGrounded(
      tools: Tools, cached: Option<QueryPlan>, v: View, planned: Outcome<QueryPlan, AgentError>,
      proposal: Option<string>)
    ensures var r := Resolve(tools, cached, v, planned, proposal).decision;
            r.Returned? && r.value.Some? ==>
              var d := r.value.value;
              && (RunsData(d) ==>
                    exists a | a in v.artifacts && a.kind.PreparedQuery? ::
                      d.nextAction.value.arguments == tools.encode(RunArguments(a.artifactId, 100)))
              && (RunsData(d) ==> forall a | a in v.artifacts :: !IsResult(a))
              && (d.kind.Finish? ==>
                    || (exists a :: Answers(v, a) && Evidenced(v, a.artifactId))
                    || (v.mode.PlanMode? && "query.execute" !in v.allowed && "query.preview" !in v.allowed
                        && exists a | a in v.artifacts :: a.kind.PreparedQuery?))
  {
    var r := Resolve(tools, cached, v, planned, proposal).decision;
    if r.Returned? && r.value.Some? {
      var cache := if v.queryResumed then None else cached;
      if BeforeQuery(tools, v).Some? {
        BeforeQueryIsGrounded(tools, v);
      } else if FirstPrepared(v.artifacts).Some? {
        AfterQueryIsGrounded(tools, v, cache);
      }
    }
  }

  lemma BeforeQueryIsGrounded(tools: Tools, v: View)
    requires BeforeQuery(tools, v).Some?
    ensures !RunsData(BeforeQuery(tools, v).value)
    ensures BeforeQuery(tools, v).value.kind.Finish? ==> exists a :: Answers(v, a) && Evidenced(v, a.artifactId)
  {
    if BeforeQuery(tools, v).value.kind.Finish? {
      assert Answers(v, SemanticArtifact(v.observations).value);
    }
  }

  lemma AfterQueryIsGrounded(tools: Tools, v: View, query: Option<QueryPlan>)
    requires FirstPrepared(v.artifacts).Some?
    ensures var prepared := FirstPrepared(v.artifacts).value;
            var d := AfterQuery(tools, v, query, prepared);
            && (RunsData(d) ==> d.nextAction.value.arguments == tools.encode(RunArguments(prepared.artifactId, 100)))
            && (RunsData(d) ==> LastResult(v.artifacts).None?)
            && (d.kind.Finish? ==>
                  || (exists a :: Answers(v, a) && Evidenced(v, a.artifactId))
                  || (v.mode.PlanMode? && "query.execute" !in v.allowed && "query.preview" !in v.allowed))
  {
    hide Mentions, Appended, FirstRunnable, ResultArguments, Skipping, CanonicalToolStep;
    var d := AfterQuery(tools, v, query, FirstPrepared(v.artifacts).value);
    if d.kind.Finish? && LastResult(v.artifacts).Some? {
      assert Answers(v, LastResult(v.artifacts).value);
    }
  }

  // ---- model calls ----

  function SemanticIds(observations: seq<Observation>): set<string> {
    set o, a | o in observations && IsInspection(o) && a in o.artifactRefs :: a.artifactId
  }

  /** Source: `requires_model_call`, what the planning node asks before it charges a model call. */
  predicate RequiresModelCall(tools: Tools, cached: Option<QueryPlan>, v: View) {
    if v.queryResumed then true
    else if !LastSucceeded(v) then false
    else if v.question.needsSemantics
            && (SemanticIds(v.observations) == {}
                || (exists id | id in SemanticIds(v.observations) :: !Evidenced(v, id))
                || v.question.semanticOnly) then false
    else if WantsCatalog(tools, v) || WantsSemantics(tools, v) then false
    else FirstPrepared(v.artifacts).None? && cached.None?
  }

  /** The decision consults the model: it needs a query and none is kept. */
  predicate ConsultsModel(tools: Tools, cached: Option<QueryPlan>, v: View) {
    && (LastSucceeded(v) || v.queryResumed)
    && BeforeQuery(tools, v).None? && FirstPrepared(v.artifacts).None?
    && (v.queryResumed || cached.None?)
  }

  /** Exactly the consulting decisions depend on the model's answer; all others come out the same whatever it says. */
  lemma OnlyConsultingDepends(
    tools: Tools, cached: Option<QueryPlan>, v: View,
    planned: Outcome<QueryPlan, AgentError>, other: Outcome<QueryPlan, AgentError>, proposal: Option<string>)
    ensures !ConsultsModel(tools, cached, v) ==>
              Resolve(tools, cached, v, planned, proposal) == Resolve(tools, cached, v, other, proposal)
    ensures ConsultsModel(tools, cached, v) && planned.Raised? ==>
              Resolve(tools, cached, v, planned, proposal).decision == Raised(planned.error)
    ensures ConsultsModel(tools, cached, v) && planned.Returned? ==>
              Resolve(tools, cached, v, planned, proposal).cache == Some(planned.value)
  {
  }

  /** The guards of the decisions that come before any query: an inspection, evidence for one, or the end. */
  predicate Precedes(tools: Tools, v: View) {
    var semantic := SemanticArtifact(v.observations);
    || (WantsCatalog(tools, v) && "catalog.inspect" in v.allowed)
    || (WantsSemantics(tools, v) && "semantic.inspect" in v.allowed)
    || (FirstPrepared(v.artifacts).None?
        && (if semantic.None? || !Evidenced(v, semantic.value.artifactId)
            then v.question.needsSemantics
            else v.question.semanticOnly))
  }

  lemma BeforeQueryIff(tools: Tools, v: View)
    requires v.question.semanticOnly ==> v.question.needsSemantics
    ensures BeforeQuery(tools, v).Some? <==> Precedes(tools, v)
  {
  }

  /** A clarified query is being replanned, and the decision needs no query after all, or has one prepared. */
  predicate Overcharged(tools: Tools, v: View) {
    v.queryResumed && (FirstPrepared(v.artifacts).Some? || Precedes(tools, v))
  }

  /**
   * Outside a clarified query, nothing comes before the query that is neither prepared nor kept, and an
   * earlier semantic artifact is still unevidenced, or the next step asks for an inspection not allowed.
   */
  predicate Undercharged(tools: Tools, cached: Option<QueryPlan>, v: View) {
    && !v.queryResumed && LastSucceeded(v) && FirstPrepared(v.artifacts).None? && cached.None? && !Precedes(tools, v)
    && ((v.question.needsSemantics && exists id | id in SemanticIds(v.observations) :: !Evidenced(v, id))
        || (WantsCatalog(tools, v) && "catalog.inspect" !in v.allowed)
        || (WantsSemantics(tools, v) && "semantic.inspect" !in v.allowed))
  }

  lemma {:induction false} SemanticArtifactIff(observations: seq<Observation>)
    ensures SemanticArtifact(observations).Some? <==> SemanticIds(observations) != {}
    ensures SemanticArtifact(observations).Some?
            ==> SemanticArtifact(observations).value.artifactId in SemanticIds(observations)
  {
    var r := SemanticArtifact(observations);
    if r.Some? {
      var o :| o in observations && IsInspection(o) && r.value in o.artifactRefs;
      assert r.value.artifactId in SemanticIds(observations);
    } else {
      assert forall o, a | o in observations && IsInspection(o) :: a !in o.artifactRefs;
    }
  }

  /** The charge made before the decision and the call made in it disagree in exactly these cases, and in no others. */
  lemma ChargeIsExactIff(tools: Tools, cached: Option<QueryPlan>, v: View)
    requires v.question.semanticOnly ==> v.question.needsSemantics
    ensures RequiresModelCall(tools, cached, v) && !ConsultsModel(tools, cached, v) <==> Overcharged(tools, v)
    ensures ConsultsModel(tools, cached, v) && !RequiresModelCall(tools, cached, v) <==> Undercharged(tools, cached, v)
  {
    BeforeQueryIff(tools, v);
    SemanticArtifactIff(v.observations);
    hide BeforeQuery, WantsCatalog, WantsSemantics, SemanticArtifact, SemanticIds, Evidenced;
  }

  // ---- the resolver object ----

  function FirstPlan(tools: Tools, runId: string): AnalysisPlan {
    var wording := CanonicalToolStep("catalog.inspect");
    AnalysisPlan(
      tools.planId(runId), 1,
      [AnalysisStep("inspect_catalog", wording.objective, StepPending, [], wording.expectedEvidence)],
      ["Answer with validated governed evidence"])
  }

  lemma FirstPlanIsSound(tools: Tools, runId: string)
    ensures var plan := FirstPlan(tools, runId);
            && ValidPlan(plan) && InOrder(plan.steps, [])
            && FirstRunnable(plan.steps) == Some(0)
  {
    var steps := FirstPlan(tools, runId).steps;
    assert IsTopologicalOrder(steps, StepIds(steps));
    assert Runnable(steps, steps[0]);
  }

  /** Source: `initial_decision`. A run starts by inspecting its catalog, or not at all. */
  function FirstDecision(tools: Tools, runId: string, allowed: set<string>): PlannerDecision {
    var plan := FirstPlan(tools, runId);
    if "catalog.inspect" in allowed then Acting(tools, plan, 0, "catalog.inspect", NoArguments) else GivingUp(plan)
  }

  lemma FirstDecisionIsSound(tools: Tools, runId: string, allowed: set<string>)
    ensures var d := FirstDecision(tools, runId, allowed);
            && ValidDecision(d) && d.plan == FirstPlan(tools, runId) && ValidPlan(d.plan) && InOrder(d.plan.steps, [])
            && if "catalog.inspect" in allowed then Starts(d, 0) && d.nextAction.value.toolName == "catalog.inspect"
               else d.kind.GiveUp?
  {
    FirstPlanIsSound(tools, runId);
    ActingEdits(tools, FirstPlan(tools, runId), 0, "catalog.inspect", NoArguments);
  }

  class DatasetNextActionResolver {
    const tools: Tools
    var queryPlan: Option<QueryPlan>

    constructor (tools: Tools)
      ensures this.tools == tools && queryPlan == None
    {
      this.tools := tools;
      queryPlan := None;
    }

    method InitialDecision(runId: string, allowed: set<string>) returns (d: PlannerDecision)
      ensures d == FirstDecision(tools, runId, allowed)
      ensures ValidDecision(d) && d.plan == FirstPlan(tools, runId)
      ensures ValidPlan(d.plan) && InOrder(d.plan.steps, [])
      ensures if "catalog.inspect" in allowed then Starts(d, 0) && d.nextAction.value.toolName == "catalog.inspect"
              else d.kind.GiveUp?
    {
      FirstDecisionIsSound(tools, runId, allowed);
      var plan := FirstPlan(tools, runId);
      if "catalog.inspect" !in allowed {
        return GivingUp(plan);
      }
      return Acting(tools, plan, 0, "catalog.inspect", NoArguments);
    }

    /** The program is built once and kept. */
    method PlanQuery(planned: Outcome<QueryPlan, AgentError>) returns (r: Outcome<QueryPlan, AgentError>)
      modifies this`queryPlan
      ensures r == if old(queryPlan).Some? then Returned(old(queryPlan).value) else planned
      ensures queryPlan == if r.Returned? then Some(r.value) else old(queryPlan)
    {
      if queryPlan.None? {
        if planned.Raised? {
          return planned;
        }
        queryPlan := Some(planned.value);
      }
      return Returned(queryPlan.value);
    }

    method Call(v: View, planned: Outcome<QueryPlan, AgentError>, proposal: Option<string>)
      returns (r: Outcome<Option<PlannerDecision>, AgentError>)
      modifies this`queryPlan
      ensures Resolution(r, queryPlan) == Resolve(tools, old(queryPlan), v, planned, proposal)
    {
      if v.queryResumed {
        queryPlan := None;
      }
      if !LastSucceeded(v) && !v.queryResumed {
        return Returned(None);
      }
      var early := BeforeQuery(tools, v);
      if early.Some? {
        return Returned(early);
      }
      var prepared := FirstPrepared(v.artifacts);
      if prepared.Some? {
        return Returned(Some(AfterQuery(tools, v, queryPlan, prepared.value)));
      }
      var query := PlanQuery(planned);
      if query.Raised? {
        return Raised(query.error);
      }
      var decision := WithQuery(tools, v, query.value, proposal);
      return match decision case Raised(e) => Raised(e) case Returned(d) => Returned(Some(d));
    }
  }
}
