/** The deterministic-first evaluator: what can be decided about a run's progress without a model. */
module AgentEvaluator {
  import opened Outcomes
  import opened AgentModels
  import opened PlanGraph

  // ---- the checks ----

  predicate ContainsNonFinite(v: Json) {
    match v
    case JFloat(finite) => !finite
    case JList(items) => exists i | 0 <= i < |items| :: ContainsNonFinite(items[i])
    case JDict(members) => exists i | 0 <= i < |members| :: ContainsNonFinite(members[i].1)
    case _ => false
  }

  predicate ArtifactFits(a: ArtifactRef, runId: string, authority: DatasetAuthority) {
    && a.runId == runId
    && (a.schemaDigest.Some? ==> a.schemaDigest.value == authority.schemaFingerprint)
  }

  /** The artifact under an id; of several, the last. */
  function ArtifactById(artifacts: seq<ArtifactRef>, id: string): Option<ArtifactRef> {
    if artifacts == [] then None
    else if artifacts[|artifacts| - 1].artifactId == id then Some(artifacts[|artifacts| - 1])
    else ArtifactById(artifacts[..|artifacts| - 1], id)
  }

  predicate EvidenceFits(e: EvidenceRef, authority: DatasetAuthority, artifacts: seq<ArtifactRef>) {
    && e.pins == authority.pins
    && e.schemaFingerprint == authority.schemaFingerprint
    && ArtifactById(artifacts, e.artifactId).Some?
    && ArtifactById(artifacts, e.artifactId).value.digest == e.resultDigest
  }

  predicate IsEmptyResult(a: ArtifactRef) {
    (a.kind.QueryPreview? || a.kind.QueryResult?) && a.rowCount == Some(0)
  }

  predicate Claimed(evidence: seq<EvidenceRef>, key: string) {
    exists e | e in evidence :: e.claimKey == key
  }

  /** The required keys no evidence claims, in order. */
  function Missing(required: seq<string>, evidence: seq<EvidenceRef>): seq<string> {
    if required == [] then []
    else
      Missing(required[..|required| - 1], evidence)
      + if Claimed(evidence, required[|required| - 1]) then [] else [required[|required| - 1]]
  }

  function Otherwise(missing: seq<string>, fallback: string): seq<string> {
    if missing == [] then [fallback] else missing
  }

  function FirstOccurrences(keys: seq<string>): seq<string> {
    if keys == [] then []
    else
      var init := FirstOccurrences(keys[..|keys| - 1]);
      if keys[|keys| - 1] in init then init else init + [keys[|keys| - 1]]
  }

  function CompletedIds(steps: seq<AnalysisStep>): seq<string> {
    if steps == [] then []
    else
      CompletedIds(steps[..|steps| - 1])
      + if steps[|steps| - 1].status.StepCompleted? then [steps[|steps| - 1].stepId] else []
  }

  /** A valid evaluation that asks nothing of the user. */
  predicate Decides(d: EvaluationDecision) {
    ValidEvaluation(d) && d.clarification.None?
  }

  function Verdict(kind: EvaluationKind, completed: seq<string>, missing: seq<string>, contradictions: seq<string>)
    : (d: EvaluationDecision)
    requires !kind.AskUser?
    ensures Decides(d)
  {
    EvaluationDecision(kind, kind.Done?, completed, missing, contradictions, None)
  }

  predicate StepsAllDone(plan: AnalysisPlan) {
    forall s | s in plan.steps && !s.status.StepSkipped? :: s.stepId in CompletedIds(plan.steps)
  }

  function DeterministicDecision(
    plan: AnalysisPlan,
    authority: DatasetAuthority,
    runId: string,
    observations: seq<Observation>,
    artifacts: seq<ArtifactRef>,
    evidence: seq<EvidenceRef>,
    required: seq<string>,
    contradictions: seq<string>,
    budgetExhausted: bool): (d: Option<EvaluationDecision>)
    ensures d.Some? ==> Decides(d.value)
  {
    var completed := CompletedIds(plan.steps);
    var missing := Missing(required, evidence);
    var latest := if observations == [] then None else Some(observations[|observations| - 1]);
    if budgetExhausted then
      Some(Verdict(Abort, completed, Otherwise(missing, "remaining execution budget"), []))
    else if latest.Some? && latest.value.error.Some? then
      var error := latest.value.error.value;
      Some(Verdict(if error.retryable then Replan else Abort, completed,
                   Otherwise(missing, "successful tool result"), ["tool_error:" + CodeName(error.code)]))
    else if exists a | a in artifacts :: !ArtifactFits(a, runId, authority) then
      Some(Verdict(Abort, completed, missing, ["artifact_run_or_schema_mismatch"]))
    else if exists e | e in evidence :: !EvidenceFits(e, authority, artifacts) then
      Some(Verdict(Abort, completed, missing, ["evidence_authority_or_digest_mismatch"]))
    else if contradictions != [] then
      Some(Verdict(Replan, completed, missing, FirstOccurrences(contradictions)))
    else if latest.Some? && exists a | a in latest.value.artifactRefs :: IsEmptyResult(a) then
      Some(Verdict(Replan, completed, Otherwise(missing, "non-empty query result"), []))
    else if latest.Some? && exists p | p in latest.value.safePreview :: ContainsNonFinite(p) then
      Some(Verdict(Replan, completed, Otherwise(missing, "finite numeric result"), ["non_finite_result"]))
    else if evidence != [] && missing == [] && StepsAllDone(plan) then
      Some(Verdict(Done, completed, [], []))
    else None
  }

  function PreModelDecision(
    plan: AnalysisPlan,
    authority: DatasetAuthority,
    runId: string,
    observations: seq<Observation>,
    artifacts: seq<ArtifactRef>,
    evidence: seq<EvidenceRef>,
    required: seq<string>,
    contradictions: seq<string>,
    budgetExhausted: bool): (d: Option<EvaluationDecision>)
    ensures d.Some? ==> Decides(d.value)
  {
    var decided := DeterministicDecision(plan, authority, runId, observations, artifacts, evidence, required,
        contradictions, budgetExhausted);
    var incomplete := exists s | s in plan.steps :: !s.status.StepCompleted? && !s.status.StepSkipped?;
    if decided.Some? then decided
    else if observations != [] && (incomplete || evidence == []) then
      Some(Verdict(Continue, CompletedIds(plan.steps), required, []))
    else None
  }

  /** The evaluation a graph node asks for: the keys required are the keys claimed. */
  function ProgressDecision(
    plan: AnalysisPlan,
    authority: DatasetAuthority,
    runId: string,
    observations: seq<Observation>,
    artifacts: seq<ArtifactRef>,
    evidence: seq<EvidenceRef>): (d: Option<EvaluationDecision>)
    ensures d.Some? ==> Decides(d.value)
  {
    PreModelDecision(plan, authority, runId, observations, artifacts, evidence, FirstOccurrences(ClaimKeys(evidence)),
        [], false)
  }

  function ClaimKeys(evidence: seq<EvidenceRef>): seq<string> {
    if evidence == [] then [] else ClaimKeys(evidence[..|evidence| - 1]) + [evidence[|evidence| - 1].claimKey]
  }

  // ---- what the evaluation means ----

  lemma {:induction false} ClaimKeysClaimed(evidence: seq<EvidenceRef>, key: string)
    requires key in FirstOccurrences(ClaimKeys(evidence))
    ensures Claimed(evidence, key)
  {
    var init := evidence[..|evidence| - 1];
    var last := evidence[|evidence| - 1];
    assert ClaimKeys(evidence)[..|ClaimKeys(evidence)| - 1] == ClaimKeys(init);
    if key == last.claimKey {
      assert last in evidence;
    } else {
      ClaimKeysClaimed(init, key);
      var e :| e in init && e.claimKey == key;
      assert e in evidence;
    }
  }

  lemma {:induction false} NothingMissing(required: seq<string>, evidence: seq<EvidenceRef>)
    ensures Missing(required, evidence) == [] <==> forall key | key in required :: Claimed(evidence, key)
  {
    if required != [] {
      var init, last := required[..|required| - 1], required[|required| - 1];
      NothingMissing(init, evidence);
      assert required == init + [last];
    }
  }

  lemma ClaimedIsNotMissing(evidence: seq<EvidenceRef>)
    ensures Missing(FirstOccurrences(ClaimKeys(evidence)), evidence) == []
  {
    NothingMissing(FirstOccurrences(ClaimKeys(evidence)), evidence);
    forall key | key in FirstOccurrences(ClaimKeys(evidence)) ensures Claimed(evidence, key) {
      ClaimKeysClaimed(evidence, key);
    }
  }

  lemma {:induction false} CompletedIdsAre(steps: seq<AnalysisStep>, id: string)
    ensures id in CompletedIds(steps) <==> exists s | s in steps :: s.status.StepCompleted? && s.stepId == id
  {
    if steps != [] {
      var init, last := steps[..|steps| - 1], steps[|steps| - 1];
      CompletedIdsAre(init, id);
      assert steps == init + [last];
    }
  }

  lemma {:induction false} CompletedIdsDiffer(steps: seq<AnalysisStep>)
    requires Distinct(StepIds(steps))
    ensures Distinct(CompletedIds(steps))
    ensures forall id | id in CompletedIds(steps) :: id in StepIds(steps)
  {
    if steps != [] {
      var init, last := steps[..|steps| - 1], steps[|steps| - 1];
      assert StepIds(steps) == StepIds(init) + [last.stepId];
      DistinctSnoc(StepIds(init), last.stepId);
      CompletedIdsDiffer(init);
      DistinctSnoc(CompletedIds(init), last.stepId);
    }
  }

  lemma {:induction false} FirstOccurrencesDiffer(keys: seq<string>)
    ensures Distinct(FirstOccurrences(keys))
  {
    if keys != [] {
      FirstOccurrencesDiffer(keys[..|keys| - 1]);
      DistinctSnoc(FirstOccurrences(keys[..|keys| - 1]), keys[|keys| - 1]);
    }
  }

  /** What constructing an evaluation checks besides its fields' agreement. */
  ghost predicate UniqueEntries(d: EvaluationDecision) {
    Distinct(d.completedStepIds) && Distinct(d.missingEvidence) && Distinct(d.contradictions)
  }

  /** With the unique step ids of an accepted plan, every verdict passes all checks of its constructor. */
  lemma ProgressDecisionIsValid(
    plan: AnalysisPlan,
    authority: DatasetAuthority,
    runId: string,
    observations: seq<Observation>,
    artifacts: seq<ArtifactRef>,
    evidence: seq<EvidenceRef>)
    requires Distinct(StepIds(plan.steps))
    ensures var d := ProgressDecision(plan, authority, runId, observations, artifacts, evidence);
            d.Some? ==> Decides(d.value) && UniqueEntries(d.value)
  {
    hide ClaimKeys, ContainsNonFinite, EvidenceFits, ArtifactFits, IsEmptyResult, StepsAllDone, CodeName, CompletedIds,
         FirstOccurrences;
    ClaimedIsNotMissing(evidence);
    CompletedIdsDiffer(plan.steps);
    FirstOccurrencesDiffer(ClaimKeys(evidence));
  }

  /** The last observation is a success with rows and finite numbers. */
  predicate GoodResult(o: Observation) {
    && o.error.None?
    && (forall a | a in o.artifactRefs :: !IsEmptyResult(a))
    && (forall p | p in o.safePreview :: !ContainsNonFinite(p))
  }

  predicate AllFits(
      authority: DatasetAuthority, runId: string, artifacts: seq<ArtifactRef>, evidence: seq<EvidenceRef>)
  {
    && (forall a | a in artifacts :: ArtifactFits(a, runId, authority))
    && (forall e | e in evidence :: EvidenceFits(e, authority, artifacts))
  }

  /** Once something was observed, the evaluation never needs a model: every case is decided. */
  lemma NoModelCallNeeded(
    plan: AnalysisPlan,
    authority: DatasetAuthority,
    runId: string,
    observations: seq<Observation>,
    artifacts: seq<ArtifactRef>,
    evidence: seq<EvidenceRef>)
    requires observations != [] && Distinct(StepIds(plan.steps))
    ensures ProgressDecision(plan, authority, runId, observations, artifacts, evidence).Some?
  {
    ClaimedIsNotMissing(evidence);
    if forall s | s in plan.steps :: s.status.StepCompleted? || s.status.StepSkipped? {
      forall s | s in plan.steps && !s.status.StepSkipped? ensures s.stepId in CompletedIds(plan.steps) {
        CompletedIdsAre(plan.steps, s.stepId);
      }
    }
  }

  /**
   * The evaluation says finish exactly when there is evidence, the last result is a good one, every
   * artifact and every piece of evidence matches the run and its authority, and every step that was
   * not skipped is completed.
   */
  lemma FinishIff(
    plan: AnalysisPlan,
    authority: DatasetAuthority,
    runId: string,
    observations: seq<Observation>,
    artifacts: seq<ArtifactRef>,
    evidence: seq<EvidenceRef>)
    requires observations != [] && Distinct(StepIds(plan.steps))
    ensures var d := ProgressDecision(plan, authority, runId, observations, artifacts, evidence);
            d.Some? && d.value.kind.Done? <==>
              && evidence != []
              && GoodResult(observations[|observations| - 1])
              && AllFits(authority, runId, artifacts, evidence)
              && forall s | s in plan.steps :: s.status.StepCompleted? || s.status.StepSkipped?
  {
    hide ClaimKeys;
    ClaimedIsNotMissing(evidence);
    AllDoneMeans(plan);
  }

  // ---- what the checks look for ----

  /** The value reached by a path of positions, if there is one. */
  function ValueAt(v: Json, path: seq<nat>): Option<Json>
    decreases |path|
  {
    if path == [] then Some(v)
    else if v.JList? && path[0] < |v.items| then ValueAt(v.items[path[0]], path[1..])
    else if v.JDict? && path[0] < |v.members| then ValueAt(v.members[path[0]].1, path[1..])
    else None
  }

  /** However deep it lies in lists and dictionaries, a number that is not finite is found, and nothing else. */
  lemma {:induction false} NonFiniteIsFound(v: Json)
    ensures ContainsNonFinite(v) <==> exists path :: ValueAt(v, path) == Some(JFloat(false))
  {
    if ContainsNonFinite(v) {
      match v
      case JFloat(_) =>
        assert ValueAt(v, []) == Some(JFloat(false));
      case JList(items) =>
        var i :| 0 <= i < |items| && ContainsNonFinite(items[i]);
        NonFiniteIsFound(items[i]);
        var path :| ValueAt(items[i], path) == Some(JFloat(false));
        assert ([i] + path)[1..] == path;
        assert ValueAt(v, [i] + path) == Some(JFloat(false));
      case JDict(members) =>
        var i :| 0 <= i < |members| && ContainsNonFinite(members[i].1);
        NonFiniteIsFound(members[i].1);
        var path :| ValueAt(members[i].1, path) == Some(JFloat(false));
        assert ([i] + path)[1..] == path;
        assert ValueAt(v, [i] + path) == Some(JFloat(false));
    } else if path :| ValueAt(v, path) == Some(JFloat(false)) {
      ReachedIsContained(v, path);
    }
  }

  lemma {:induction false} ReachedIsContained(v: Json, path: seq<nat>)
    requires ValueAt(v, path) == Some(JFloat(false))
    ensures ContainsNonFinite(v)
    decreases |path|
  {
    if path != [] {
      ReachedIsContained(if v.JList? then v.items[path[0]] else v.members[path[0]].1, path[1..]);
    }
  }

  lemma {:induction false} ArtifactByIdIs(artifacts: seq<ArtifactRef>, id: string)
    requires forall i, j | 0 <= i < j < |artifacts| :: artifacts[i].artifactId != artifacts[j].artifactId
    ensures forall a :: ArtifactById(artifacts, id) == Some(a) <==> a in artifacts && a.artifactId == id
  {
    if artifacts != [] {
      var init, last := artifacts[..|artifacts| - 1], artifacts[|artifacts| - 1];
      ArtifactByIdIs(init, id);
      assert artifacts == init + [last];
    }
  }

  /**
   * Evidence fits exactly when it was taken under the pins and the schema of the authority and names the
   * digest of a recorded artifact.
   */
  lemma EvidenceFitsIff(e: EvidenceRef, authority: DatasetAuthority, artifacts: seq<ArtifactRef>)
    requires forall i, j | 0 <= i < j < |artifacts| :: artifacts[i].artifactId != artifacts[j].artifactId
    ensures EvidenceFits(e, authority, artifacts) <==>
            && e.pins.sourceId == authority.pins.sourceId && e.pins.sourceVersion == authority.pins.sourceVersion
            && e.pins.bindingId == authority.pins.bindingId && e.pins.bindingVersion == authority.pins.bindingVersion
            && e.schemaFingerprint == authority.schemaFingerprint
            && exists a | a in artifacts :: a.artifactId == e.artifactId && a.digest == e.resultDigest
  {
    ArtifactByIdIs(artifacts, e.artifactId);
    if ArtifactById(artifacts, e.artifactId).Some? {
      assert ArtifactById(artifacts, e.artifactId) == Some(ArtifactById(artifacts, e.artifactId).value);
    }
    if a :| a in artifacts && a.artifactId == e.artifactId {
      assert ArtifactById(artifacts, e.artifactId) == Some(a);
    }
  }

  // ---- the verdicts ----

  /** Every artifact is of this run and, where it names a schema, of this schema, and all evidence fits. */
  ghost predicate Consistent(
      authority: DatasetAuthority, runId: string, artifacts: seq<ArtifactRef>, evidence: seq<EvidenceRef>)
  {
    && (forall a | a in artifacts :: a.runId == runId && a.schemaDigest in {None, Some(authority.schemaFingerprint)})
    && (forall e | e in evidence ::
          && e.pins == authority.pins && e.schemaFingerprint == authority.schemaFingerprint
          && exists a | a in artifacts :: a.artifactId == e.artifactId && a.digest == e.resultDigest)
  }

  /** The last result has a query artifact of no rows, or shows a number that is not finite. */
  ghost predicate Unusable(o: Observation) {
    || (exists a | a in o.artifactRefs :: a.kind in {QueryPreview, QueryResult} && a.rowCount == Some(0))
    || (exists p, path | p in o.safePreview :: ValueAt(p, path) == Some(JFloat(false)))
  }

  lemma ConsistentIsFitting(
      authority: DatasetAuthority, runId: string, artifacts: seq<ArtifactRef>, evidence: seq<EvidenceRef>)
    requires forall i, j | 0 <= i < j < |artifacts| :: artifacts[i].artifactId != artifacts[j].artifactId
    ensures AllFits(authority, runId, artifacts, evidence) <==> Consistent(authority, runId, artifacts, evidence)
  {
    forall e ensures EvidenceFits(e, authority, artifacts) <==>
        && e.pins == authority.pins && e.schemaFingerprint == authority.schemaFingerprint
        && exists a | a in artifacts :: a.artifactId == e.artifactId && a.digest == e.resultDigest
    {
      EvidenceFitsIff(e, authority, artifacts);
    }
    hide EvidenceFits;
  }

  lemma UnusableIsNotGood(o: Observation)
    ensures GoodResult(o) <==> o.error.None? && !Unusable(o)
  {
    forall p ensures ContainsNonFinite(p) <==> exists path :: ValueAt(p, path) == Some(JFloat(false)) {
      NonFiniteIsFound(p);
    }
    hide ContainsNonFinite, ValueAt;
  }

  /**
   * What each verdict says about the run. It fails after an error that cannot be retried, or when an
   * artifact or a piece of evidence is not of this run and its authority; it asks for a replan after an
   * error that can be retried, or when everything fits but the last result is unusable; it is done when
   * everything fits, the result is good, there is evidence and no step is left; and it continues when
   * there are steps left or no evidence.
   */
  lemma VerdictIff(
    plan: AnalysisPlan,
    authority: DatasetAuthority,
    runId: string,
    observations: seq<Observation>,
    artifacts: seq<ArtifactRef>,
    evidence: seq<EvidenceRef>)
    requires observations != [] && Distinct(StepIds(plan.steps))
    requires forall i, j | 0 <= i < j < |artifacts| :: artifacts[i].artifactId != artifacts[j].artifactId
    ensures ProgressDecision(plan, authority, runId, observations, artifacts, evidence).Some?
    ensures var kind := ProgressDecision(plan, authority, runId, observations, artifacts, evidence).value.kind;
            var last := observations[|observations| - 1];
            var fits := Consistent(authority, runId, artifacts, evidence);
            var over := forall s | s in plan.steps :: s.status.StepCompleted? || s.status.StepSkipped?;
            && (kind.Abort? <==> if last.error.Some? then !last.error.value.retryable else !fits)
            && (kind.Replan? <==> if last.error.Some? then last.error.value.retryable else fits && Unusable(last))
            && (kind.Done? <==> last.error.None? && fits && !Unusable(last) && evidence != [] && over)
            && (kind.Continue? <==> last.error.None? && fits && !Unusable(last) && (evidence == [] || !over))
            && !kind.AskUser?
  {
    hide ClaimKeys, ContainsNonFinite, Consistent, Unusable, FirstOccurrences, Missing;
    NoModelCallNeeded(plan, authority, runId, observations, artifacts, evidence);
    ClaimedIsNotMissing(evidence);
    ConsistentIsFitting(authority, runId, artifacts, evidence);
    UnusableIsNotGood(observations[|observations| - 1]);
    AllDoneMeans(plan);
    hide EvidenceFits, ArtifactFits;
  }

  /** What a verdict holds against the run: the error, the mismatch, or the unusable result it was given for. */
  lemma VerdictReasons(
    plan: AnalysisPlan,
    authority: DatasetAuthority,
    runId: string,
    observations: seq<Observation>,
    artifacts: seq<ArtifactRef>,
    evidence: seq<EvidenceRef>)
    requires observations != [] && Distinct(StepIds(plan.steps))
    ensures var d := ProgressDecision(plan, authority, runId, observations, artifacts, evidence);
            var last := observations[|observations| - 1];
            && d.Some?
            && (last.error.Some? ==> d.value.contradictions == ["tool_error:" + CodeName(last.error.value.code)])
            && (d.value.kind.Abort? && last.error.None? ==>
                  d.value.contradictions == [if forall a | a in artifacts :: ArtifactFits(a, runId, authority)
                                             then "evidence_authority_or_digest_mismatch"
                                             else "artifact_run_or_schema_mismatch"])
            && (d.value.kind.Replan? && last.error.None? ==>
                  d.value.contradictions == if exists a | a in last.artifactRefs :: IsEmptyResult(a)
                                            then [] else ["non_finite_result"])
            && (d.value.kind in {Continue, Done} ==> d.value.contradictions == [])
  {
    hide ContainsNonFinite, EvidenceFits, ArtifactFits, IsEmptyResult, ClaimKeys, FirstOccurrences, CompletedIds,
         StepsAllDone, CodeName, Missing;
    NoModelCallNeeded(plan, authority, runId, observations, artifacts, evidence);
  }

  lemma VerdictCompleted(
    plan: AnalysisPlan,
    authority: DatasetAuthority,
    runId: string,
    observations: seq<Observation>,
    artifacts: seq<ArtifactRef>,
    evidence: seq<EvidenceRef>)
    ensures var d := ProgressDecision(plan, authority, runId, observations, artifacts, evidence);
            d.Some? ==> d.value.completedStepIds == CompletedIds(plan.steps)
  {
    hide ContainsNonFinite, EvidenceFits, ArtifactFits, IsEmptyResult, ClaimKeys, FirstOccurrences, CompletedIds,
         StepsAllDone, CodeName, Missing, Otherwise, ValidEvaluation;
  }

  lemma VerdictMissing(
    plan: AnalysisPlan,
    authority: DatasetAuthority,
    runId: string,
    observations: seq<Observation>,
    artifacts: seq<ArtifactRef>,
    evidence: seq<EvidenceRef>)
    requires observations != [] && Missing(FirstOccurrences(ClaimKeys(evidence)), evidence) == []
    ensures var d := ProgressDecision(plan, authority, runId, observations, artifacts, evidence);
            d.Some? ==>
              if d.value.kind.Continue? then d.value.missingEvidence == FirstOccurrences(ClaimKeys(evidence))
              else d.value.missingEvidence != [] <==>
                     observations[|observations| - 1].error.Some? || d.value.kind.Replan?
  {
    hide ContainsNonFinite, EvidenceFits, ArtifactFits, IsEmptyResult, ClaimKeys, FirstOccurrences, CompletedIds,
         StepsAllDone, CodeName, Missing, ValidEvaluation;
  }

  /** What a verdict names: the completed steps, and something missing exactly when a result is wanted. */
  lemma VerdictNames(
    plan: AnalysisPlan,
    authority: DatasetAuthority,
    runId: string,
    observations: seq<Observation>,
    artifacts: seq<ArtifactRef>,
    evidence: seq<EvidenceRef>,
    id: string)
    requires observations != [] && Distinct(StepIds(plan.steps))
    ensures var d := ProgressDecision(plan, authority, runId, observations, artifacts, evidence);
            && d.Some?
            && (id in d.value.completedStepIds <==>
                  exists s | s in plan.steps :: s.status.StepCompleted? && s.stepId == id)
            && if d.value.kind.Continue? then id in d.value.missingEvidence <==> Claimed(evidence, id)
               else d.value.missingEvidence != [] <==>
                      observations[|observations| - 1].error.Some? || d.value.kind.Replan?
  {
    hide ProgressDecision, Claimed, CompletedIds, ClaimKeys, FirstOccurrences;
    NoModelCallNeeded(plan, authority, runId, observations, artifacts, evidence);
    ClaimedIsNotMissing(evidence);
    VerdictCompleted(plan, authority, runId, observations, artifacts, evidence);
    VerdictMissing(plan, authority, runId, observations, artifacts, evidence);
    CompletedIdsAre(plan.steps, id);
    ClaimKeysAre(evidence, id);
  }

  lemma {:induction false} ClaimKeysAre(evidence: seq<EvidenceRef>, key: string)
    ensures key in FirstOccurrences(ClaimKeys(evidence)) <==> Claimed(evidence, key)
  {
    if evidence != [] {
      var init, last := evidence[..|evidence| - 1], evidence[|evidence| - 1];
      assert ClaimKeys(evidence)[..|ClaimKeys(evidence)| - 1] == ClaimKeys(init);
      ClaimKeysAre(init, key);
      assert evidence == init + [last];
    }
  }

  lemma AllDoneMeans(plan: AnalysisPlan)
    requires Distinct(StepIds(plan.steps))
    ensures StepsAllDone(plan) <==> forall s | s in plan.steps :: s.status.StepCompleted? || s.status.StepSkipped?
  {
    if StepsAllDone(plan) {
      forall s | s in plan.steps ensures s.status.StepCompleted? || s.status.StepSkipped? {
        if !s.status.StepSkipped? {
          CompletedIdsAre(plan.steps, s.stepId);
          var done :| done in plan.steps && done.status.StepCompleted? && done.stepId == s.stepId;
          SameIdSameStep(plan.steps, s, done);
        }
      }
    } else {
      var s :| s in plan.steps && !s.status.StepSkipped? && s.stepId !in CompletedIds(plan.steps);
      CompletedIdsAre(plan.steps, s.stepId);
      assert !s.status.StepCompleted?;
    }
  }

  lemma SameIdSameStep(steps: seq<AnalysisStep>, a: AnalysisStep, b: AnalysisStep)
    requires Distinct(StepIds(steps)) && a in steps && b in steps && a.stepId == b.stepId
    ensures a == b
  {
    var i :| 0 <= i < |steps| && steps[i] == a;
    var j :| 0 <= j < |steps| && steps[j] == b;
    assert StepIds(steps)[i] == StepIds(steps)[j];
  }
}
