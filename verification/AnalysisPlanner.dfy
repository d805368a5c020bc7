/** The planner's contract: what is done to the first decision of a model, and what every decision must satisfy. */
module AnalysisPlanner {
  import opened Outcomes
  import opened AgentModels
  import opened AgentGuard
  import opened PlanGraph
  import opened PlanEdits

  function AllPending(steps: seq<AnalysisStep>): (r: seq<AnalysisStep>)
    ensures |r| == |steps|
    ensures forall i | 0 <= i < |steps| :: r[i] == steps[i].(status := StepPending)
  {
    seq(|steps|, i requires 0 <= i < |steps| => steps[i].(status := StepPending))
  }

  /** The runtime owns revisions and statuses; a first plan starts at revision 1 with nothing done. */
  function NormalizeInitialDecision(d: PlannerDecision): PlannerDecision {
    d.(plan := d.plan.(revision := 1, steps := AllPending(d.plan.steps)))
  }

  datatype DecisionRefusal = InitialRevisionNotOne | RevisionNotBumpedOnce | NoRunnableStep | UnknownTool
      | ArgumentsMismatch

  function ValidateDecision(
      d: PlannerDecision, current: Option<AnalysisPlan>, specs: map<string, ToolSpec>): Option<DecisionRefusal>
  {
    if current.None? && d.plan.revision != 1 then Some(InitialRevisionNotOne)
    else if current.Some? && d.plan != current.value && d.plan.revision != current.value.revision + 1 then
      Some(RevisionNotBumpedOnce)
    else if d.nextAction.None? then None
    else if !exists s | s in d.plan.steps :: Runnable(d.plan.steps, s) then Some(NoRunnableStep)
    else if d.nextAction.value.toolName !in specs then Some(UnknownTool)
    else if !specs[d.nextAction.value.toolName].accepts(d.nextAction.value.arguments) then Some(ArgumentsMismatch)
    else None
  }

  /**
   * A decision passes exactly when its plan has the revision that is due (1 at first, then the same plan
   * or the next revision) and an action finds a step to start, a known tool and arguments it accepts.
   */
  lemma ValidateDecisionIff(d: PlannerDecision, current: Option<AnalysisPlan>, specs: map<string, ToolSpec>)
    ensures ValidateDecision(d, current, specs).None? <==>
            && (if current.None? then d.plan.revision == 1
                else d.plan == current.value || d.plan.revision == current.value.revision + 1)
            && (d.nextAction.Some? ==>
                  && FirstRunnable(d.plan.steps).Some? && d.nextAction.value.toolName in specs
                  && specs[d.nextAction.value.toolName].accepts(d.nextAction.value.arguments))
    ensures ValidateDecision(d, current, specs) in {Some(InitialRevisionNotOne), Some(RevisionNotBumpedOnce)} <==>
            if current.None? then d.plan.revision != 1
            else d.plan != current.value && d.plan.revision != current.value.revision + 1
  {
    SomeRunnable(d.plan.steps);
  }

  /**
   * After a good result, while steps are left and no replan is asked for, the planner only chooses the
   * next action and keeps the plan.
   */
  predicate KeepsPlan(current: Option<AnalysisPlan>, observations: seq<Observation>, replanRequested: bool) {
    && current.Some? && observations != [] && observations[|observations| - 1].succeeded && !replanRequested
    && exists s | s in current.value.steps :: !IsDone(s)
  }

  /**
   * What the planner may answer: a first plan at revision 1 with everything to do, the plan kept with
   * an action, or any decision that passes the checks above.
   */
  ghost predicate MayAnswer(
    current: Option<AnalysisPlan>, observations: seq<Observation>, replanRequested: bool, specs: map<string, ToolSpec>,
    d: PlannerDecision)
  {
    if current.None? then d.plan.revision == 1 && forall s | s in d.plan.steps :: s.status.StepPending?
    else if KeepsPlan(current, observations, replanRequested) then d.plan == current.value && d.kind.Act?
    else ValidateDecision(d, current, specs).None?
  }

  lemma SomeRunnable(steps: seq<AnalysisStep>)
    ensures FirstRunnable(steps).Some? <==> exists s | s in steps :: Runnable(steps, s)
  {
    if s :| s in steps && Runnable(steps, s) {
      var i :| 0 <= i < |steps| && steps[i] == s;
    }
  }

  /** A validated action always finds a step to start, so the planning node cannot reject it for want of one. */
  lemma ValidatedActionStarts(d: PlannerDecision, current: Option<AnalysisPlan>, specs: map<string, ToolSpec>)
    requires ValidateDecision(d, current, specs).None? && d.nextAction.Some?
    ensures FirstRunnable(d.plan.steps).Some?
  {
    SomeRunnable(d.plan.steps);
  }

  /**
   * A normalized first decision is refused only for its tool or its arguments: its revision is right
   * and, the plan being accepted and not empty, a step can start. It begins an execution in order.
   */
  lemma NormalizedDecisionIsSound(d: PlannerDecision, specs: map<string, ToolSpec>)
    requires ValidPlan(d.plan)
    ensures var n := NormalizeInitialDecision(d);
            && ValidPlan(n.plan) && FirstRunnable(n.plan.steps).Some? && InOrder(n.plan.steps, [])
            && (ValidateDecision(n, None, specs).Some?
               ==> ValidateDecision(n, None, specs).value in {UnknownTool, ArgumentsMismatch})
  {
    var n := NormalizeInitialDecision(d).plan.steps;
    StatusesDoNotMatter(d.plan.(revision := 1), NormalizeInitialDecision(d).plan);
    PendingIsInOrder(n);
    PlanProgress(n);
    assert n[0] in n;
    SomeRunnable(n);
  }
}
