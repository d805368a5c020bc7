/**
 * Which way the dataset resolver chooses, tool by tool: each choice is made exactly in the situations
 * named here, by what the run has produced, what is allowed and what its question asks for.
 */
module ResolverChoices {
  import opened AgentModels
  import opened DatasetResolver
  import opened Outcomes
  import PlanGraph
  import Graph = AnalysisGraph

  // ---- the artifacts a decision reads ----

  /** Nothing before the position is of the kind looked for. */
  lemma {:induction false} FirstPreparedIs(artifacts: seq<ArtifactRef>, a: ArtifactRef)
    ensures FirstPrepared(artifacts) == Some(a) <==>
            exists i | 0 <= i < |artifacts| ::
              artifacts[i] == a && a.kind.PreparedQuery? && forall j | 0 <= j < i :: !artifacts[j].kind.PreparedQuery?
  {
    if artifacts != [] && !artifacts[0].kind.PreparedQuery? {
      var rest := artifacts[1..];
      FirstPreparedIs(rest, a);
      if FirstPrepared(artifacts) == Some(a) {
        var i :| 0 <= i < |rest| && rest[i] == a && a.kind.PreparedQuery?
                 && forall j | 0 <= j < i :: !rest[j].kind.PreparedQuery?;
        forall j | 0 <= j < i + 1 ensures !artifacts[j].kind.PreparedQuery? {
          assert j > 0 ==> artifacts[j] == rest[j - 1];
        }
        assert artifacts[i + 1] == a;
      }
      if i :| 0 <= i < |artifacts| && artifacts[i] == a && a.kind.PreparedQuery?
              && forall j | 0 <= j < i :: !artifacts[j].kind.PreparedQuery? {
        assert rest[i - 1] == a;
        forall j | 0 <= j < i - 1 ensures !rest[j].kind.PreparedQuery? {
          assert rest[j] == artifacts[j + 1];
        }
      }
    }
  }

  ghost predicate LastQueryArtifact(artifacts: seq<ArtifactRef>, i: int, a: ArtifactRef) {
    && 0 <= i < |artifacts| && artifacts[i] == a && a.kind in {QueryPreview, QueryResult}
    && forall j | i < j < |artifacts| :: artifacts[j].kind !in {QueryPreview, QueryResult}
  }

  lemma {:induction false} LastResultIs(artifacts: seq<ArtifactRef>, a: ArtifactRef)
    ensures LastResult(artifacts) == Some(a) <==> exists i :: LastQueryArtifact(artifacts, i, a)
  {
    if artifacts != [] {
      var n := |artifacts| - 1;
      var init := artifacts[..n];
      if artifacts[n].kind in {QueryPreview, QueryResult} {
        assert LastQueryArtifact(artifacts, n, artifacts[n]);
      } else {
        LastResultIs(init, a);
        forall i ensures LastQueryArtifact(artifacts, i, a) <==> LastQueryArtifact(init, i, a) {
          assert forall j | 0 <= j < n :: init[j] == artifacts[j];
        }
      }
    }
  }

  /** The first artifact of the last inspection that left one. */
  ghost predicate LastInspection(observations: seq<Observation>, i: int, a: ArtifactRef) {
    && 0 <= i < |observations| && Inspected(observations[i]) && observations[i].artifactRefs[0] == a
    && forall j | i < j < |observations| :: !Inspected(observations[j])
  }

  lemma {:induction false} SemanticArtifactIs(observations: seq<Observation>, a: ArtifactRef)
    ensures SemanticArtifact(observations) == Some(a) <==> exists i :: LastInspection(observations, i, a)
  {
    if observations != [] {
      var n := |observations| - 1;
      var init := observations[..n];
      if Inspected(observations[n]) {
        assert LastInspection(observations, n, observations[n].artifactRefs[0]);
      } else {
        SemanticArtifactIs(init, a);
        forall i ensures LastInspection(observations, i, a) <==> LastInspection(init, i, a) {
          assert forall j | 0 <= j < n :: init[j] == observations[j];
        }
      }
    }
  }

  predicate Inspected(o: Observation) {
    o.succeeded && o.toolName == "semantic.inspect" && o.artifactRefs != []
  }

  // ---- the choices ----

  /** The resolver decides: after a success, or when a clarified query is planned again. */
  predicate Decides(v: View) {
    LastSucceeded(v) || v.queryResumed
  }

  /** The query the decision rests on: the one kept, unless it was just clarified, or the one planned now. */
  function QueryOf(cached: Option<QueryPlan>, v: View, planned: Outcome<QueryPlan, AgentError>)
    : Outcome<QueryPlan, AgentError>
  {
    if cached.Some? && !v.queryResumed then Returned(cached.value) else planned
  }

  predicate Prepared(v: View) {
    exists a | a in v.artifacts :: a.kind.PreparedQuery?
  }

  predicate HasResult(v: View) {
    exists a | a in v.artifacts :: a.kind in {QueryPreview, QueryResult}
  }

  /** The decision acts with the tool and these arguments, on the chosen step as it is worded for the tool. */
  predicate ActsWith(
    tools: Tools, v: View, r: Outcome<Option<PlannerDecision>, AgentError>, toolName: string, arguments: ToolArguments)
  {
    && r.Returned? && r.value.Some? && r.value.value.kind.Act? && r.value.value.nextAction.Some?
    && r.value.value.nextAction.value.toolName == toolName
    && r.value.value.nextAction.value.arguments == tools.encode(arguments)
    && Chosen(v) < |r.value.value.plan.steps|
    && r.value.value.nextAction.value.actionId
       == tools.actionId(r.value.value.plan, r.value.value.plan.steps[Chosen(v)].stepId, toolName, arguments)
  }

  predicate Uses(r: Outcome<Option<PlannerDecision>, AgentError>, toolName: string) {
    && r.Returned? && r.value.Some? && r.value.value.nextAction.Some?
    && r.value.value.nextAction.value.toolName == toolName
  }

  lemma ActingActs(tools: Tools, v: View, toolName: string, arguments: ToolArguments)
    ensures var d := ActingOn(tools, v.plan, PlanGraph.FirstRunnable(v.plan.steps), toolName, arguments);
            ActsWith(tools, v, Returned(Some(d)), toolName, arguments)
            && forall other | other != toolName :: !Uses(Returned(Some(d)), other)
  {
    hide FirstFree, BaseId, CanonicalToolStep, DoneInOrder, IdSet;
  }

  predicate Finishes(r: Outcome<Option<PlannerDecision>, AgentError>, v: View, withEvidence: bool) {
    r == Returned(Some(Finishing(v.plan, withEvidence)))
  }

  lemma IfAllowedActs(tools: Tools, v: View, toolName: string, arguments: ToolArguments, tool: string)
    ensures var r := Returned(Some(IfAllowed(tools, v, toolName, arguments)));
            && (Uses(r, tool) <==> tool == toolName && toolName in v.allowed)
            && (Uses(r, tool) ==> ActsWith(tools, v, r, tool, arguments))
            && !r.value.value.kind.Finish? && !r.value.value.kind.Clarify?
  {
    ActingActs(tools, v, toolName, arguments);
    hide ActingOn;
  }

  /** What comes before the query: the inspection that is wanted, or evidence for one; none to finish. */
  function ToolBefore(tools: Tools, v: View): Option<string> {
    if WantsCatalog(tools, v) && "catalog.inspect" in v.allowed then Some("catalog.inspect")
    else if WantsSemantics(tools, v) && "semantic.inspect" in v.allowed then Some("semantic.inspect")
    else if SemanticArtifact(v.observations).None? then Some("semantic.inspect")
    else if !Evidenced(v, SemanticArtifact(v.observations).value.artifactId) then Some("evidence.collect")
    else None
  }

  function ArgumentsBefore(tools: Tools, v: View): ToolArguments {
    if ToolBefore(tools, v) == Some("evidence.collect") && SemanticArtifact(v.observations).Some? then
      CollectArguments(SemanticArtifact(v.observations).value.artifactId, "semantic_definition", tools.semanticRefs)
    else NoArguments
  }

  lemma UsesBefore(tools: Tools, v: View, tool: string)
    requires BeforeQuery(tools, v).Some?
    ensures var r := Returned(BeforeQuery(tools, v));
            && (Uses(r, tool) <==> ToolBefore(tools, v) == Some(tool) && tool in v.allowed)
            && (Uses(r, tool) ==> ActsWith(tools, v, r, tool, ArgumentsBefore(tools, v)))
            && (if ToolBefore(tools, v).None? then Finishes(r, v, true)
                else !r.value.value.kind.Finish? && !r.value.value.kind.Clarify?)
  {
    hide ActsWith, WantsCatalog, WantsSemantics, SemanticArtifact, Evidenced, PlanGraph.FirstRunnable, Uses;
    if ToolBefore(tools, v).Some? {
      assert BeforeQuery(tools, v).value
             == IfAllowed(tools, v, ToolBefore(tools, v).value, ArgumentsBefore(tools, v));
      IfAllowedActs(tools, v, ToolBefore(tools, v).value, ArgumentsBefore(tools, v), tool);
    } else {
      assert BeforeQuery(tools, v) == Some(Finishing(v.plan, true));
      FinishingUsesNothing(v, true, tool);
    }
  }

  lemma FinishingUsesNothing(v: View, withEvidence: bool, tool: string)
    ensures !Uses(Returned(Some(Finishing(v.plan, withEvidence))), tool)
  {
  }

  /** What follows a prepared query: running it, evidence for its result; none to finish or to give up. */
  function ToolAfter(v: View): Option<string> {
    if LastResult(v.artifacts).None? then
      if "query.execute" in v.allowed then Some("query.execute")
      else if "query.preview" in v.allowed then Some("query.preview") else None
    else if !Evidenced(v, LastResult(v.artifacts).value.artifactId) then Some("evidence.collect")
    else None
  }

  function ArgumentsAfter(v: View, query: Option<QueryPlan>, prepared: ArtifactRef): ToolArguments {
    if LastResult(v.artifacts).None? then RunArguments(prepared.artifactId, 100)
    else ResultArguments(v, query, LastResult(v.artifacts).value)
  }

  lemma UsesAfter(tools: Tools, v: View, query: Option<QueryPlan>, prepared: ArtifactRef, tool: string)
    ensures var r := Returned(Some(AfterQuery(tools, v, query, prepared)));
            && (Uses(r, tool) <==> ToolAfter(v) == Some(tool) && tool in v.allowed)
            && (Uses(r, tool) ==> ActsWith(tools, v, r, tool, ArgumentsAfter(v, query, prepared)))
            && !r.value.value.kind.Clarify? && (ToolAfter(v).Some? ==> !r.value.value.kind.Finish?)
            && (ToolAfter(v).None? ==>
                  if LastResult(v.artifacts).Some? then Finishes(r, v, true)
                  else if v.mode.PlanMode? then Finishes(r, v, false) else !r.value.value.kind.Finish?)
  {
    hide ActsWith, LastResult, Evidenced, PlanGraph.FirstRunnable, Uses, ResultArguments;
    if ToolAfter(v).Some? {
      assert AfterQuery(tools, v, query, prepared)
             == IfAllowed(tools, v, ToolAfter(v).value, ArgumentsAfter(v, query, prepared));
      IfAllowedActs(tools, v, ToolAfter(v).value, ArgumentsAfter(v, query, prepared), tool);
    } else {
      FinishingUsesNothing(v, true, tool);
      FinishingUsesNothing(v, false, tool);
      GivingUpUsesNothing(v, tool);
    }
  }

  lemma GivingUpUsesNothing(v: View, tool: string)
    ensures !Uses(Returned(Some(GivingUp(v.plan))), tool)
  {
  }

  lemma UsesWith(tools: Tools, v: View, query: QueryPlan, proposal: Option<string>, tool: string)
    requires WithQuery(tools, v, query, proposal).Returned?
    ensures var r := Returned(Some(WithQuery(tools, v, query, proposal).value));
            && (Uses(r, tool) <==> query.status.QueryReady? && tool == "query.compile" && tool in v.allowed)
            && (Uses(r, tool) ==> ActsWith(tools, v, r, tool, CompileArguments(query.program)))
            && !r.value.value.kind.Finish?
            && (r.value.value.kind.Clarify? <==> query.status.QueryUnclear?)
  {
    hide ActsWith, Uses;
    IfAllowedActs(tools, v, "query.compile", CompileArguments(query.program), tool);
    hide IfAllowed;
    ClarifyingUsesNothing(tools, v, tool);
  }

  lemma ClarifyingUsesNothing(tools: Tools, v: View, tool: string)
    ensures forall prompt :: !Uses(Returned(Some(Clarifying(tools, v.plan, prompt))), tool)
  {
  }

  lemma RefusedWith(tools: Tools, v: View, query: QueryPlan, proposal: Option<string>)
    ensures WithQuery(tools, v, query, proposal).Raised? <==> query.status.QueryUnsupported?
    ensures WithQuery(tools, v, query, proposal).Raised? ==>
              WithQuery(tools, v, query, proposal).error == AgentError(OTHER_ERROR("QUERY_UNSUPPORTED"), false)
  {
    hide IfAllowed;
  }

  /** The three parts of the decision, and when each is taken. */
  lemma ResolveParts(
    tools: Tools, cached: Option<QueryPlan>, v: View, planned: Outcome<QueryPlan, AgentError>,
    proposal: Option<string>)
    requires v.question.semanticOnly ==> v.question.needsSemantics
    ensures var r := Resolve(tools, cached, v, planned, proposal).decision;
            var query := QueryOf(cached, v, planned);
            && (BeforeQuery(tools, v).Some? <==> DatasetResolver.Precedes(tools, v))
            && (FirstPrepared(v.artifacts).Some? <==> Prepared(v))
            && if !Decides(v) then r == Returned(None)
               else if DatasetResolver.Precedes(tools, v) then r == Returned(BeforeQuery(tools, v))
               else if Prepared(v)
               then r == Returned(Some(AfterQuery(
                             tools, v, if v.queryResumed then None else cached, FirstPrepared(v.artifacts).value)))
               else if query.Raised? then r == Raised(query.error)
               else if WithQuery(tools, v, query.value, proposal).Raised?
               then r == Raised(WithQuery(tools, v, query.value, proposal).error)
               else r == Returned(Some(WithQuery(tools, v, query.value, proposal).value))
  {
    BeforeQueryIff(tools, v);
    hide BeforeQuery, AfterQuery, WithQuery, DatasetResolver.Precedes;
  }

  /**
   * Every choice of a tool, by the situation it is made in. The resolver decides after a success, or
   * when a clarified query is planned again. What comes before the query is done first. A query is
   * compiled exactly when none is prepared and the one at hand is ready; a prepared one without a result
   * is executed where that is allowed and previewed only where it is not; a result without evidence is
   * bound to evidence; and no other tool is ever chosen.
   */
  lemma ToolIff(
    tools: Tools, cached: Option<QueryPlan>, v: View, planned: Outcome<QueryPlan, AgentError>,
    proposal: Option<string>, tool: string)
    requires v.question.semanticOnly ==> v.question.needsSemantics
    ensures var r := Resolve(tools, cached, v, planned, proposal).decision;
            var before := DatasetResolver.Precedes(tools, v);
            var query := QueryOf(cached, v, planned);
            && (Uses(r, tool) <==>
                  && Decides(v) && tool in v.allowed
                  && if before then ToolBefore(tools, v) == Some(tool)
                     else if Prepared(v) then ToolAfter(v) == Some(tool)
                     else tool == "query.compile" && query.Returned? && query.value.status.QueryReady?)
            && (Uses(r, tool) ==>
                  ActsWith(tools, v, r, tool,
                           if before then ArgumentsBefore(tools, v)
                           else if Prepared(v)
                           then ArgumentsAfter(v, if v.queryResumed then None else cached,
                                               FirstPrepared(v.artifacts).value)
                           else CompileArguments(query.value.program)))
  {
    hide DatasetResolver.Precedes, ActsWith, ToolBefore, ToolAfter, ArgumentsBefore, ArgumentsAfter, BeforeQuery,
         AfterQuery, WithQuery, Resolve;
    ResolveParts(tools, cached, v, planned, proposal);
    var cache, query := if v.queryResumed then None else cached, QueryOf(cached, v, planned);
    if BeforeQuery(tools, v).Some? {
      UsesBefore(tools, v, tool);
    } else if FirstPrepared(v.artifacts).Some? {
      UsesAfter(tools, v, cache, FirstPrepared(v.artifacts).value, tool);
    } else if query.Returned? {
      RefusedWith(tools, v, query.value, proposal);
      if WithQuery(tools, v, query.value, proposal).Returned? {
        UsesWith(tools, v, query.value, proposal, tool);
      }
    }
  }

  /**
   * A prepared query without a result is executed where that is allowed, and previewed only where executing
   * is not; nothing is executed or previewed otherwise.
   */
  lemma RunsIff(
    tools: Tools, cached: Option<QueryPlan>, v: View, planned: Outcome<QueryPlan, AgentError>,
    proposal: Option<string>)
    requires v.question.semanticOnly ==> v.question.needsSemantics
    ensures var r := Resolve(tools, cached, v, planned, proposal).decision;
            var due := Decides(v) && !DatasetResolver.Precedes(tools, v) && Prepared(v) && !HasResult(v);
            && (Uses(r, "query.execute") <==> due && "query.execute" in v.allowed)
            && (Uses(r, "query.preview") <==> due && "query.execute" !in v.allowed && "query.preview" in v.allowed)
            && (Uses(r, "query.execute") ==>
                  ActsWith(tools, v, r, "query.execute",
                           RunArguments(FirstPrepared(v.artifacts).value.artifactId, 100)))
            && (Uses(r, "query.preview") ==>
                  ActsWith(tools, v, r, "query.preview",
                           RunArguments(FirstPrepared(v.artifacts).value.artifactId, 100)))
  {
    hide Resolve, ActsWith, Uses, DatasetResolver.Precedes, Decides, Evidenced, WantsCatalog, WantsSemantics,
         SemanticArtifact, ResultArguments;
    ToolIff(tools, cached, v, planned, proposal, "query.execute");
    ToolIff(tools, cached, v, planned, proposal, "query.preview");
  }

  /** The last query result has evidence. */
  ghost predicate ResultIsBound(v: View) {
    exists i, a, e | LastQueryArtifact(v.artifacts, i, a) && e in v.evidence :: e.artifactId == a.artifactId
  }

  predicate CannotRun(v: View) {
    !HasResult(v) && "query.execute" !in v.allowed && "query.preview" !in v.allowed
  }

  lemma ResultStands(v: View)
    ensures LastResult(v.artifacts).Some? <==> HasResult(v)
    ensures LastResult(v.artifacts).Some? && ToolAfter(v).None? <==>
            ResultIsBound(v)
    ensures LastResult(v.artifacts).None? && ToolAfter(v).None? <==> CannotRun(v)
  {
    hide LastQueryArtifact;
    forall a ensures LastResult(v.artifacts) == Some(a) <==> exists i :: LastQueryArtifact(v.artifacts, i, a) {
      LastResultIs(v.artifacts, a);
    }
    if ResultIsBound(v) {
      var i, a, e :| LastQueryArtifact(v.artifacts, i, a) && e in v.evidence && e.artifactId == a.artifactId;
      assert LastResult(v.artifacts) == Some(a);
    }
    if LastResult(v.artifacts).Some? && Evidenced(v, LastResult(v.artifacts).value.artifactId) {
      var a := LastResult(v.artifacts).value;
      assert LastResult(v.artifacts) == Some(a);
      var i :| LastQueryArtifact(v.artifacts, i, a);
      var e :| e in v.evidence && e.artifactId == a.artifactId;
      assert ResultIsBound(v);
    }
  }

  predicate Finished(r: Outcome<Option<PlannerDecision>, AgentError>) {
    r.Returned? && r.value.Some? && r.value.value.kind.Finish?
  }

  predicate Asks(r: Outcome<Option<PlannerDecision>, AgentError>) {
    r.Returned? && r.value.Some? && r.value.value.kind.Clarify?
  }

  /**
   * The resolver finishes with evidence exactly when what comes before the query needs no tool any more,
   * or the result of the query has its evidence; and without it in plan mode, with nothing that may run
   * the prepared query. It never finishes otherwise.
   */
  lemma FinishIff(
    tools: Tools, cached: Option<QueryPlan>, v: View, planned: Outcome<QueryPlan, AgentError>,
    proposal: Option<string>)
    requires v.question.semanticOnly ==> v.question.needsSemantics
    ensures var r := Resolve(tools, cached, v, planned, proposal).decision;
            var before := DatasetResolver.Precedes(tools, v);
            && (Finishes(r, v, true) <==>
                  Decides(v) && if before then ToolBefore(tools, v).None?
                                else Prepared(v) && ResultIsBound(v))
            && (Finishes(r, v, false) <==> Decides(v) && !before && Prepared(v) && CannotRun(v) && v.mode.PlanMode?)
            && (Finished(r) ==> Finishes(r, v, true) || Finishes(r, v, false))
  {
    hide DatasetResolver.Precedes, ActsWith, ToolBefore, ToolAfter, BeforeQuery, AfterQuery, WithQuery, Uses, Finishes,
         Resolve, LastResult, LastSucceeded, Decides, QueryOf, Prepared, ResultIsBound, CannotRun;
    ResolveParts(tools, cached, v, planned, proposal);
    ResultStands(v);
    var cache, query := if v.queryResumed then None else cached, QueryOf(cached, v, planned);
    FinishesOne(Resolve(tools, cached, v, planned, proposal).decision, v);
    if DatasetResolver.Precedes(tools, v) {
      UsesBefore(tools, v, "");
    } else if Prepared(v) {
      UsesAfter(tools, v, cache, FirstPrepared(v.artifacts).value, "");
    } else if query.Returned? && WithQuery(tools, v, query.value, proposal).Returned? {
      UsesWith(tools, v, query.value, proposal, "");
    }
  }

  /** It asks exactly about an unclear query it needs, and refuses one it cannot get or that is not supported. */
  lemma AskIff(
    tools: Tools, cached: Option<QueryPlan>, v: View, planned: Outcome<QueryPlan, AgentError>,
    proposal: Option<string>)
    requires v.question.semanticOnly ==> v.question.needsSemantics
    ensures var r := Resolve(tools, cached, v, planned, proposal).decision;
            var query := QueryOf(cached, v, planned);
            var needsQuery := Decides(v) && !DatasetResolver.Precedes(tools, v) && !Prepared(v);
            && (Asks(r) <==> needsQuery && query.Returned? && query.value.status.QueryUnclear?)
            && (r.Raised? <==> needsQuery && (query.Raised? || query.value.status.QueryUnsupported?))
            && (r.Raised? ==>
                  r.error == if query.Raised? then query.error else AgentError(OTHER_ERROR("QUERY_UNSUPPORTED"), false))
  {
    hide DatasetResolver.Precedes, ActsWith, ToolBefore, ToolAfter, BeforeQuery, AfterQuery, WithQuery, Uses, Finishes,
         Resolve, LastResult, LastSucceeded, Decides, QueryOf, Prepared;
    ResolveParts(tools, cached, v, planned, proposal);
    var cache, query := if v.queryResumed then None else cached, QueryOf(cached, v, planned);
    FinishesOne(Resolve(tools, cached, v, planned, proposal).decision, v);
    if DatasetResolver.Precedes(tools, v) {
      UsesBefore(tools, v, "");
    } else if Prepared(v) {
      UsesAfter(tools, v, cache, FirstPrepared(v.artifacts).value, "");
    } else if query.Returned? {
      RefusedWith(tools, v, query.value, proposal);
      if WithQuery(tools, v, query.value, proposal).Returned? {
        UsesWith(tools, v, query.value, proposal, "");
      }
    }
  }

  /** The query kept for the next call: the one just planned, if the model was consulted, else the one before. */
  lemma KeptQuery(
    tools: Tools, cached: Option<QueryPlan>, v: View, planned: Outcome<QueryPlan, AgentError>,
    proposal: Option<string>)
    ensures Resolve(tools, cached, v, planned, proposal).cache
            == if ConsultsModel(tools, cached, v) && planned.Returned? then Some(planned.value)
               else if v.queryResumed then None else cached
  {
    hide BeforeQuery, AfterQuery, WithQuery;
  }

  lemma FinishesOne(r: Outcome<Option<PlannerDecision>, AgentError>, v: View)
    ensures Finishes(r, v, true) ==> !Finishes(r, v, false)
    ensures forall e :: Finishes(r, v, e) ==> r.Returned? && r.value.Some? && r.value.value.kind.Finish?
  {
  }

  /** Finishing leaves no step to do: pending ones are skipped, and with evidence the blocked ones too. */
  lemma FinishingLeavesNothing(plan: AnalysisPlan, withEvidence: bool)
    ensures var after := Finishing(plan, withEvidence).plan;
            && after.revision == plan.revision + 1 && |after.steps| == |plan.steps|
            && (forall s | s in after.steps :: !s.status.StepPending? && (withEvidence ==> !s.status.StepBlocked?))
            && forall i | 0 <= i < |plan.steps| ::
              after.steps[i] == plan.steps[i]
              || (after.steps[i] == plan.steps[i].(status := StepSkipped)
                  && (plan.steps[i].status.StepPending? || (withEvidence && plan.steps[i].status.StepBlocked?)))
  {
    hide Summary;
    var after := Finishing(plan, withEvidence).plan.steps;
    forall s | s in after ensures !s.status.StepPending? && (withEvidence ==> !s.status.StepBlocked?) {
      var i :| 0 <= i < |after| && after[i] == s;
    }
  }

  // ---- what goes into a decision ----

  /**
   * Evidence for a query result is asked for under the one output's name, or a common key when there are
   * none or several, and for the outputs of the ready query; without any, for the columns of the preview.
   */
  lemma ResultArgumentsAre(v: View, query: Option<QueryPlan>, result: ArtifactRef)
    ensures var r := ResultArguments(v, query, result);
            var ready := query.Some? && query.value.status.QueryReady?;
            && r.CollectArguments? && r.artifactId == result.artifactId && r.fieldRefs != []
            && (ready && query.value.outputs != [] ==> r.fieldRefs == query.value.outputs)
            && (r.claimKey != "analysis_result" ==> ready && query.value.outputs == [r.claimKey])
            && (ready && |query.value.outputs| == 1 ==> r.claimKey == query.value.outputs[0])
            && (!ready || query.value.outputs == [] ==>
                  && (forall p | IsFirstRow(v, p) && p.members != [] ::
                        && |r.fieldRefs| == |p.members|
                        && forall i | 0 <= i < |p.members| :: r.fieldRefs[i] == p.members[i].0)
                  && ((forall p | IsFirstRow(v, p) :: p.members == []) ==> r.fieldRefs == ["analysis_result"]))
  {
    if v.observations != [] {
      var preview := v.observations[|v.observations| - 1].safePreview;
      if preview != [] && preview[0].JDict? {
        assert IsFirstRow(v, preview[0]);
      }
    }
  }

  /** The first previewed row of the last observation. */
  predicate IsFirstRow(v: View, p: Json) {
    && v.observations != [] && v.observations[|v.observations| - 1].safePreview != []
    && p == v.observations[|v.observations| - 1].safePreview[0] && p.JDict?
  }

  /** A question is a clarification of the query, with the proposal's wording, the query's, or a common one. */
  lemma AsksFor(tools: Tools, v: View, query: QueryPlan, proposal: Option<string>)
    requires query.status.QueryUnclear?
    ensures WithQuery(tools, v, query, proposal).Returned?
    ensures var d := WithQuery(tools, v, query, proposal).value;
            && d.plan == v.plan && d.clarification.Some?
            && var c := d.clarification.value;
            && c.origin.FromDatasetQuery? && c.choices == [] && c.allowFreeText
            && c.interruptId == tools.interruptId(c.prompt) && (proposal.Some? ==> c.prompt == proposal.value)
            && (proposal.None? && query.clarificationQuestion != "" ==> c.prompt == query.clarificationQuestion)
  {
  }

  /** Acting on a step whose wording fits keeps the plan; another wording costs exactly one revision. */
  lemma ActingRevises(tools: Tools, plan: AnalysisPlan, k: nat, toolName: string, arguments: ToolArguments)
    requires k < |plan.steps|
    ensures var d := Acting(tools, plan, k, toolName, arguments);
            var fits := plan.steps[k].objective == CanonicalToolStep(toolName).objective
                        && plan.steps[k].expectedEvidence == CanonicalToolStep(toolName).expectedEvidence;
            && d.plan.revision == plan.revision + (if fits then 0 else 1) && (fits ==> d.plan == plan)
            && d.plan.planId == plan.planId && d.plan.completionCriteria == plan.completionCriteria
            && |d.plan.steps| == |plan.steps|
            && forall i | 0 <= i < |plan.steps| ::
              d.plan.steps[i] == if fits || plan.steps[i].stepId != plan.steps[k].stepId then plan.steps[i]
                                 else plan.steps[i].(objective := CanonicalToolStep(toolName).objective,
                                                     expectedEvidence := CanonicalToolStep(toolName).expectedEvidence)
  {
  }

  /** A step appended for a tool waits for exactly the steps that are done, and is the only change of its revision. */
  lemma AppendedWaits(plan: AnalysisPlan, toolName: string, id: string)
    ensures var after := Appended(plan, toolName);
            && after.planId == plan.planId && after.revision == plan.revision + 1 && |after.steps| == |plan.steps| + 1
            && after.steps[..|plan.steps|] == plan.steps && after.steps[|plan.steps|].status.StepPending?
            && (id in after.steps[|plan.steps|].dependsOn <==>
                  exists s | s in plan.steps :: s.stepId == id && (s.status.StepCompleted? || s.status.StepSkipped?))
            && (id in after.completionCriteria <==> id in plan.completionCriteria || id == EVIDENCE_CRITERION)
  {
    DoneInOrderIs(plan.steps, id);
    hide DoneInOrder, FirstFree, BaseId, IdSet, CanonicalToolStep;
  }

  /** The names of the steps appended to a plan that has none of them yet. */
  lemma StepNames(plan: AnalysisPlan, toolName: string)
    requires forall s | s in plan.steps :: s.stepId != BaseId(toolName)
    ensures var id := Appended(plan, toolName).steps[|plan.steps|].stepId;
            && (toolName == "semantic.inspect" ==> id == "inspect_semantic")
            && (toolName == "query.compile" ==> id == "compile_query")
            && (toolName == "query.execute" ==> id == "run_query")
            && (toolName == "query.preview" ==> id == "preview_query")
            && (toolName == "evidence.collect" ==> id == "bind_evidence")
  {
    hide DoneInOrder, CanonicalToolStep;
    assert BaseId(toolName) !in IdSet(plan.steps);
  }

  lemma {:induction false} DoneInOrderIs(steps: seq<AnalysisStep>, id: string)
    ensures id in DoneInOrder(steps) <==>
            exists s | s in steps :: s.stepId == id && (s.status.StepCompleted? || s.status.StepSkipped?)
  {
    if steps != [] {
      var init, last := steps[..|steps| - 1], steps[|steps| - 1];
      DoneInOrderIs(init, id);
      assert steps == init + [last];
    }
  }

  /** A clarified query is planned again exactly when a replan is due and the last answer was about the query. */
  lemma ResumedIff(s: Graph.State, mode: AgentMode, allowed: set<string>, question: Question)
    requires s.plan.Some?
    ensures ViewOf(s, mode, allowed, question).queryResumed <==>
            s.replanRequested && exists init, last :: s.turns == init + [last] && last.origin.FromDatasetQuery?
  {
    if s.turns != [] {
      assert s.turns == s.turns[..|s.turns| - 1] + [s.turns[|s.turns| - 1]];
    }
  }
}
