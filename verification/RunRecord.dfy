/**
 * What a run of the analysis graph leaves on record: its evidence is backed by artifacts that came with
 * an observation, its answer rests on that evidence, and its budget is what its events show.
 */
module RunRecord {
  import opened Outcomes
  import opened AgentModels
  import opened AgentRouting
  import opened AgentGuard
  import opened AgentReducers
  import opened AgentEvaluator
  import opened AnalysisGraph
  import opened PlanGraph

  // ---- the record ----

  predicate BackedBy(e: EvidenceRef, artifacts: seq<ArtifactRef>) {
    exists a | a in artifacts :: a.artifactId == e.artifactId && a.digest == e.resultDigest
  }

  predicate ArtifactSeen(observations: seq<Observation>, a: ArtifactRef) {
    exists o | o in observations :: a in o.artifactRefs
  }

  predicate EvidenceSeen(observations: seq<Observation>, e: EvidenceRef) {
    exists o | o in observations :: e in o.evidenceRefs
  }

  /** Artifacts and evidence are exactly those of the observations, and all evidence has its artifact. */
  ghost predicate RecordKept(s: State) {
    && (forall a :: a in s.artifacts <==> ArtifactSeen(s.observations, a))
    && (forall e :: e in s.evidence <==> EvidenceSeen(s.observations, e))
    && (forall e | e in s.evidence :: BackedBy(e, s.artifacts))
  }

  predicate SameRecord(s: State, t: State) {
    t.observations == s.observations && t.artifacts == s.artifacts && t.evidence == s.evidence
  }

  predicate Grounded(s: State) {
    s.draft.Some? && forall id | id in s.draft.value.evidenceIds :: id in EvidenceIds(s.evidence)
  }

  predicate HasAnswer(c: Config) {
    || (c.At? && (c.node.PersistTurn? || c.node.FinalizeRun?))
    || (c.Ended? && c.state.status.AgentCompleted?)
  }

  // ---- counting events ----

  function Count(payloads: seq<EventData>, p: EventData -> bool): nat {
    if payloads == [] then 0
    else Count(payloads[..|payloads| - 1], p) + if p(payloads[|payloads| - 1]) then 1 else 0
  }

  lemma CountOne(a: EventData, p: EventData -> bool)
    ensures Count([a], p) == if p(a) then 1 else 0
  {
    assert [a][..0] == [];
  }

  lemma CountTwo(a: EventData, b: EventData, p: EventData -> bool)
    ensures Count([a, b], p) == (if p(a) then 1 else 0) + (if p(b) then 1 else 0)
  {
    assert [a, b][..1] == [a];
    CountOne(a, p);
  }

  lemma {:induction false} CountConcat(a: seq<EventData>, b: seq<EventData>, p: EventData -> bool)
    ensures Count(a + b, p) == Count(a, p) + Count(b, p)
    decreases |b|
  {
    if b == [] {
      assert a + b == a;
    } else {
      var all := a + b;
      assert all[..|all| - 1] == a + b[..|b| - 1];
      CountConcat(a, b[..|b| - 1], p);
    }
  }

  predicate IsPlanUpdate(d: EventData) { d.PlanUpdated? }

  predicate IsToolCompletion(d: EventData) { d.ToolCompleted? }

  predicate IsResume(d: EventData) { d.RunResumed? }

  /** The node pays for what it says: a step for a plan, a call for a completed tool, a turn for a resume. */
  predicate Pays(s: State, t: Turn) {
    t.Finished? ==>
      && t.state.budget.agentSteps == s.budget.agentSteps + Count(t.payloads, IsPlanUpdate)
      && t.state.budget.toolCalls == s.budget.toolCalls + Count(t.payloads, IsToolCompletion)
      && |t.state.turns| == |s.turns| + Count(t.payloads, IsResume)
  }

  lemma {:induction false} CountZero(payloads: seq<EventData>, p: EventData -> bool)
    requires forall d | d in payloads :: !p(d)
    ensures Count(payloads, p) == 0
  {
    if payloads != [] {
      assert payloads[|payloads| - 1] in payloads;
      assert forall d | d in payloads[..|payloads| - 1] :: d in payloads;
      CountZero(payloads[..|payloads| - 1], p);
    }
  }

  /** Nothing paid and nothing said that costs. */
  predicate CostsNothing(s: State, t: Turn) {
    t.Finished? ==>
      && t.state.budget.agentSteps == s.budget.agentSteps && t.state.budget.toolCalls == s.budget.toolCalls
      && t.state.turns == s.turns && forall d | d in t.payloads ::
            !IsPlanUpdate(d) && !IsToolCompletion(d) && !IsResume(d)
  }

  lemma FreeMeansPays(s: State, t: Turn)
    requires CostsNothing(s, t)
    ensures Pays(s, t)
  {
    if t.Finished? {
      CountZero(t.payloads, IsPlanUpdate);
      CountZero(t.payloads, IsToolCompletion);
      CountZero(t.payloads, IsResume);
    }
  }

  lemma InitializePays(setup: Setup, env: Env)
    ensures CostsNothing(INITIAL, Initialize(setup, INITIAL, env))
            && SameRecord(INITIAL, Initialize(setup, INITIAL, env).state)
  {
  }

  lemma LoadPays(s: State, env: Env)
    ensures CostsNothing(s, Load(s, env)) && SameRecord(s, Load(s, env).state)
  {
  }

  lemma GuardPays(setup: Setup, s: State, env: Env)
    ensures CostsNothing(s, Guard(setup, s, env)) && SameRecord(s, Guard(setup, s, env).state)
  {
  }

  lemma EvaluatePays(setup: Setup, s: State, env: Env)
    ensures CostsNothing(s, Evaluate(setup, s, env)) && SameRecord(s, Evaluate(setup, s, env).state)
  {
    hide ProgressDecision, EnsureNodeEntry;
    ConsumeOne(s.budget, setup.limits, ModelCalls);
  }

  lemma SynthesizePays(setup: Setup, s: State, env: Env)
    ensures CostsNothing(s, Synthesize(setup, s, env)) && SameRecord(s, Synthesize(setup, s, env).state)
  {
    ConsumeOne(s.budget, setup.limits, ModelCalls);
    var t := Synthesize(setup, s, env);
    assert |t.payloads| <= 1;
    assert t.payloads == [] || t.payloads[0].AnswerSynthesizing?;
  }

  lemma LatePay(s: State, env: Env)
    ensures CostsNothing(s, Validate(s, env)) && SameRecord(s, Validate(s, env).state)
    ensures CostsNothing(s, Persist(s, env)) && SameRecord(s, Persist(s, env).state)
    ensures CostsNothing(s, Finalize(s, env)) && SameRecord(s, Finalize(s, env).state)
    ensures CostsNothing(s, FailRun(s)) && SameRecord(s, FailRun(s).state)
  {
  }

  lemma RequestPays(setup: Setup, s: State, env: Env, resume: Option<ResumeValue>)
    ensures var t := Request(setup, s, env, resume);
            Pays(s, t) && (t.Finished? ==> SameRecord(s, t.state))
  {
    var t := Request(setup, s, env, resume);
    if t.Finished? && t.payloads != [] {
      assert t.payloads == [t.payloads[0]];
      CountOne(t.payloads[0], IsPlanUpdate);
      CountOne(t.payloads[0], IsToolCompletion);
      CountOne(t.payloads[0], IsResume);
    }
  }

  lemma ExecutePays(setup: Setup, s: State, env: Env)
    ensures Pays(s, Execute(setup, s, env)) && SameRecord(s, Execute(setup, s, env).state)
  {
    var t := Execute(setup, s, env);
    if |t.payloads| == 2 {
      assert t.payloads == [t.payloads[0], t.payloads[1]];
      CountTwo(t.payloads[0], t.payloads[1], IsPlanUpdate);
      CountTwo(t.payloads[0], t.payloads[1], IsToolCompletion);
      CountTwo(t.payloads[0], t.payloads[1], IsResume);
      ToolDraws(s.budget, setup.limits, s.pendingAction.value.toolName);
    } else {
      FreeMeansPays(s, t);
    }
  }

  lemma ToolDraws(b: BudgetState, limits: RunBudget, toolName: string)
    requires Consume(b, limits, CountersOf(toolName)).Returned?
    ensures Consume(b, limits, CountersOf(toolName)).value.agentSteps == b.agentSteps
    ensures Consume(b, limits, CountersOf(toolName)).value.toolCalls == b.toolCalls + 1
  {
    ConsumeOne(b, limits, ToolCalls);
    ConsumeTwo(b, limits, ToolCalls, QueryCompiles);
    ConsumeTwo(b, limits, ToolCalls, QueryPreviews);
    ConsumeTwo(b, limits, ToolCalls, QueryExecutes);
  }

  lemma PlannedPays(s: State, d: PlannerDecision, budget: BudgetState, started: Option<nat>)
    requires started.Some? ==> d.nextAction.Some? && started.value < |d.plan.steps|
    requires budget.agentSteps == s.budget.agentSteps + 1 && budget.toolCalls == s.budget.toolCalls
    ensures Pays(s, Planned(s, d, budget, started)) && SameRecord(s, Planned(s, d, budget, started).state)
  {
    var payloads := Planned(s, d, budget, started).payloads;
    if started.None? {
      assert payloads == [payloads[0]];
      CountOne(payloads[0], IsPlanUpdate);
      CountOne(payloads[0], IsToolCompletion);
      CountOne(payloads[0], IsResume);
    } else {
      assert payloads == [payloads[0], payloads[1]];
      CountTwo(payloads[0], payloads[1], IsPlanUpdate);
      CountTwo(payloads[0], payloads[1], IsToolCompletion);
      CountTwo(payloads[0], payloads[1], IsResume);
    }
  }

  lemma PlanPays(setup: Setup, s: State, env: Env)
    requires Ready(setup, PlanOrReplan, s) && EnvValid(env)
    ensures Pays(s, Plan(setup, s, env)) && SameRecord(s, Plan(setup, s, env).state)
  {
    var t := Plan(setup, s, env);
    if t.payloads == [] {
      PlanFailureIsFree(setup, s, env);
      FreeMeansPays(s, t);
    } else {
      StepDrawKeepsChain(s.budget, setup.limits, s.replanRequested);
      var budget := Consume(s.budget, setup.limits, StepCounters(s)).value;
      DecideKeepsChain(setup, s, budget, env);
      var choice := Decide(setup, s, budget, env).value;
      var started := if choice.decision.kind.Act? then FirstRunnable(choice.decision.plan.steps) else None;
      assert t == Planned(s, choice.decision, choice.budget, started);
      PlannedPays(s, choice.decision, choice.budget, started);
    }
  }

  lemma PlanFailureIsFree(setup: Setup, s: State, env: Env)
    requires Plan(setup, s, env).payloads == []
    ensures CostsNothing(s, Plan(setup, s, env)) && SameRecord(s, Plan(setup, s, env).state)
  {
  }

  lemma ObservePays(s: State, env: Env)
    ensures Pays(s, Observe(s, env))
    ensures Observe(s, env).Crash? ==> forall d | d in Observe(s, env).payloads :: d.ObservationRecorded?
  {
    FreeMeansPays(s, Observe(s, env));
  }

  // ---- the record grows by observations ----

  lemma RecordedKeeps(s: State, o: Observation, plan: AnalysisPlan)
    requires RecordKept(s) && ValidObservation(o) && Recorded(s, o, plan).Finished?
    requires UniqueIds(s.observations, ObservationKey) && UniqueIds(s.artifacts, ArtifactKey)
             && UniqueIds(s.evidence, EvidenceKey)
    ensures RecordKept(Recorded(s, o, plan).state)
  {
    var t := Recorded(s, o, plan).state;
    MergeAllMeans(s.observations, ObservationKey, [o]);
    MergeAllMeans(s.artifacts, ArtifactKey, o.artifactRefs);
    MergeAllMeans(s.evidence, EvidenceKey, o.evidenceRefs);
    forall a ensures a in t.artifacts <==> ArtifactSeen(t.observations, a) {
      SeenSnoc(s, t, o, a);
    }
    forall e ensures e in t.evidence <==> EvidenceSeen(t.observations, e) {
      EvidenceSeenSnoc(s, t, o, e);
    }
    forall e | e in t.evidence ensures BackedBy(e, t.artifacts) {
      if e in s.evidence {
        var a :| a in s.artifacts && a.artifactId == e.artifactId && a.digest == e.resultDigest;
        assert a in t.artifacts;
      } else {
        var a :| a in o.artifactRefs && a.artifactId == e.artifactId && a.digest == e.resultDigest;
        assert a in t.artifacts;
      }
    }
  }

  lemma SeenSnoc(s: State, t: State, o: Observation, a: ArtifactRef)
    requires forall x :: x in t.observations <==> x in s.observations || x in [o]
    requires a in s.artifacts <==> ArtifactSeen(s.observations, a)
    requires a in t.artifacts <==> a in s.artifacts || a in o.artifactRefs
    ensures a in t.artifacts <==> ArtifactSeen(t.observations, a)
  {
    assert o in [o];
    if ArtifactSeen(t.observations, a) {
      var x :| x in t.observations && a in x.artifactRefs;
      assert x in s.observations || x == o;
    }
  }

  lemma EvidenceSeenSnoc(s: State, t: State, o: Observation, e: EvidenceRef)
    requires forall x :: x in t.observations <==> x in s.observations || x in [o]
    requires e in s.evidence <==> EvidenceSeen(s.observations, e)
    requires e in t.evidence <==> e in s.evidence || e in o.evidenceRefs
    ensures e in t.evidence <==> EvidenceSeen(t.observations, e)
  {
    assert o in [o];
    if EvidenceSeen(t.observations, e) {
      var x :| x in t.observations && e in x.evidenceRefs;
      assert x in s.observations || x == o;
    }
  }

  lemma ObserveRecords(setup: Setup, s: State, env: Env)
    requires Ready(setup, ObserveResult, s) && RecordKept(s) && Observe(s, env).Finished?
    ensures RecordKept(Observe(s, env).state)
  {
    if Blocked(s, env).None? {
      var o := s.pendingObservation.value;
      var t := Observe(s, env);
      RecordedKeeps(s, o, t.state.plan.value);
      assert t == Recorded(s, o, t.state.plan.value);
    }
  }

  // ---- one move ----

  lemma NodePays(setup: Setup, node: Node, s: State, env: Env, resume: Option<ResumeValue>)
    requires Ready(setup, node, s) && EnvValid(env)
    ensures Pays(s, RunNode(setup, node, s, env, resume))
    ensures RunNode(setup, node, s, env, resume).Finished? && !node.ObserveResult? ==>
              SameRecord(s, RunNode(setup, node, s, env, resume).state)
  {
    if node in {InitializeRun, LoadContext, GuardDecision, EvaluateProgress, SynthesizeAnswer} {
      FreeNodePays(setup, node, s, env, resume);
    } else if node in {PlanOrReplan, ExecuteTool, ObserveResult, RequestInput} {
      PayingNodePays(setup, node, s, env, resume);
    } else {
      LatePay(s, env);
      FreeMeansPays(s, RunNode(setup, node, s, env, resume));
    }
  }

  lemma FreeNodePays(setup: Setup, node: Node, s: State, env: Env, resume: Option<ResumeValue>)
    requires Ready(setup, node, s)
             && node in {InitializeRun, LoadContext, GuardDecision, EvaluateProgress, SynthesizeAnswer}
    ensures Pays(s, RunNode(setup, node, s, env, resume))
    ensures RunNode(setup, node, s, env, resume).Finished? ==> SameRecord(s, RunNode(setup, node, s, env, resume).state)
  {
    match node
    case InitializeRun => InitializePays(setup, env); FreeMeansPays(s, Initialize(setup, s, env));
    case LoadContext => LoadPays(s, env); FreeMeansPays(s, Load(s, env));
    case GuardDecision => GuardPays(setup, s, env); FreeMeansPays(s, Guard(setup, s, env));
    case EvaluateProgress => EvaluatePays(setup, s, env); FreeMeansPays(s, Evaluate(setup, s, env));
    case SynthesizeAnswer => SynthesizePays(setup, s, env); FreeMeansPays(s, Synthesize(setup, s, env));
  }

  lemma PayingNodePays(setup: Setup, node: Node, s: State, env: Env, resume: Option<ResumeValue>)
    requires Ready(setup, node, s) && EnvValid(env) && node in {PlanOrReplan, ExecuteTool, ObserveResult, RequestInput}
    ensures Pays(s, RunNode(setup, node, s, env, resume))
    ensures RunNode(setup, node, s, env, resume).Finished? && !node.ObserveResult? ==>
              SameRecord(s, RunNode(setup, node, s, env, resume).state)
  {
    match node
    case PlanOrReplan => PlanPays(setup, s, env);
    case ExecuteTool => ExecutePays(setup, s, env);
    case ObserveResult => ObservePays(s, env);
    case RequestInput => RequestPays(setup, s, env, resume);
  }

  function SaidBy(setup: Setup, c: Config, m: Move): seq<EventData> {
    if Enabled(c, m) && !TurnOf(setup, c, m).Pause? then TurnOf(setup, c, m).payloads else []
  }

  /** Everything the nodes of a run emitted, in order. */
  function Said(setup: Setup, moves: seq<Move>): seq<EventData> {
    if moves == [] then []
    else Said(setup, moves[..|moves| - 1]) + SaidBy(setup, Reach(setup, moves[..|moves| - 1]), moves[|moves| - 1])
  }

  ghost predicate Accounts(s: State, said: seq<EventData>) {
    && s.budget.agentSteps == Count(said, IsPlanUpdate)
    && s.budget.toolCalls == Count(said, IsToolCompletion)
    && |s.turns| == Count(said, IsResume)
  }

  lemma MoveAccounts(setup: Setup, c: Config, m: Move, said: seq<EventData>)
    requires Fits(setup, c) && EnvValid(m.env) && Accounts(c.state, said)
    ensures Accounts(Next(setup, c, m).state, said + SaidBy(setup, c, m))
  {
    CountConcat(said, SaidBy(setup, c, m), IsPlanUpdate);
    CountConcat(said, SaidBy(setup, c, m), IsToolCompletion);
    CountConcat(said, SaidBy(setup, c, m), IsResume);
    if Enabled(c, m) && !TurnOf(setup, c, m).Pause? {
      TurnAccounts(setup, c, m);
    }
  }

  lemma TurnAccounts(setup: Setup, c: Config, m: Move)
    requires Fits(setup, c) && EnvValid(m.env) && Enabled(c, m) && !TurnOf(setup, c, m).Pause?
    ensures var said := SaidBy(setup, c, m);
            var after := Next(setup, c, m).state;
            && after.budget.agentSteps == c.state.budget.agentSteps + Count(said, IsPlanUpdate)
            && after.budget.toolCalls == c.state.budget.toolCalls + Count(said, IsToolCompletion)
            && |after.turns| == |c.state.turns| + Count(said, IsResume)
  {
    var t := TurnOf(setup, c, m);
    if t.Finished? {
      NodePays(setup, NodeOf(c), c.state, m.env, if m.Resume? then Some(m.value) else None);
      LandedIs(NodeOf(c), t.state);
    } else {
      MoveOk(setup, c, m);
      ObservePays(c.state, m.env);
      CountZero(t.payloads, IsPlanUpdate);
      CountZero(t.payloads, IsToolCompletion);
      CountZero(t.payloads, IsResume);
    }
  }

  /**
   * The budget is what the run shows: as many agent steps as plans announced, as many tool calls as
   * completed tools, as many answered clarifications as resumes.
   */
  lemma {:induction false} BudgetIsVisible(setup: Setup, moves: seq<Move>)
    requires MovesValid(moves)
    ensures Accounts(Reach(setup, moves).state, Said(setup, moves))
  {
    if moves != [] {
      var init, m := moves[..|moves| - 1], moves[|moves| - 1];
      assert m in moves && forall x | x in init :: x in moves;
      BudgetIsVisible(setup, init);
      ReachFits(setup, init);
      assert moves == init + [m];
      Snoc(setup, init, m);
      MoveAccounts(setup, Reach(setup, init), m, Said(setup, init));
    }
  }

  lemma MoveKeepsRecord(setup: Setup, c: Config, m: Move)
    requires Fits(setup, c) && EnvValid(m.env) && RecordKept(c.state)
    ensures RecordKept(Next(setup, c, m).state)
  {
    if Enabled(c, m) && TurnOf(setup, c, m).Finished? {
      var t := TurnOf(setup, c, m);
      LandedIs(NodeOf(c), t.state);
      if NodeOf(c).ObserveResult? {
        ObserveRecords(setup, c.state, m.env);
      } else {
        NodePays(setup, NodeOf(c), c.state, m.env, if m.Resume? then Some(m.value) else None);
        SameRecordKept(c.state, t.state);
      }
    }
  }

  lemma SameRecordKept(s: State, t: State)
    requires RecordKept(s) && SameRecord(s, t)
    ensures RecordKept(t)
  {
  }

  /**
   * In every reachable state, evidence and artifacts come from observations, and evidence has the
   * artifact it cites.
   */
  lemma {:induction false} EvidenceIsBacked(setup: Setup, moves: seq<Move>)
    requires MovesValid(moves)
    ensures RecordKept(Reach(setup, moves).state)
  {
    if moves != [] {
      var init, m := moves[..|moves| - 1], moves[|moves| - 1];
      assert m in moves && forall x | x in init :: x in moves;
      EvidenceIsBacked(setup, init);
      ReachFits(setup, init);
      assert moves == init + [m];
      Snoc(setup, init, m);
      MoveKeepsRecord(setup, Reach(setup, init), m);
    }
  }

  // ---- the answer ----

  lemma MoveKeepsGrounded(setup: Setup, c: Config, m: Move)
    requires Fits(setup, c) && Enabled(c, m) && (HasAnswer(c) ==> Grounded(c.state))
    ensures HasAnswer(Next(setup, c, m)) ==> Grounded(Next(setup, c, m).state)
  {
    hide Initialize, Load, Plan, Guard, Execute, Observe, Evaluate, Request, Synthesize;
    var next := Next(setup, c, m);
    if HasAnswer(next) && TurnOf(setup, c, m).Finished? {
      AnswerComesFrom(NodeOf(c), TurnOf(setup, c, m).state);
    }
  }

  lemma AnswerComesFrom(node: Node, s: State)
    ensures HasAnswer(Landed(node, s)) ==>
              node.ValidateAnswer? || node.PersistTurn? || node.FinalizeRun? || node.Fail?
    ensures Landed(node, s).At? && Landed(node, s).node.PersistTurn? ==> node.ValidateAnswer?
    ensures Landed(node, s).At? && Landed(node, s).node.FinalizeRun? ==> node.PersistTurn?
  {
  }

  /** A run that completes has an answer, and every piece of evidence the answer cites is on record. */
  lemma {:induction false} AnswerIsGrounded(setup: Setup, moves: seq<Move>)
    requires MovesValid(moves)
    ensures HasAnswer(Reach(setup, moves)) ==> Grounded(Reach(setup, moves).state)
  {
    if moves != [] {
      var init, m := moves[..|moves| - 1], moves[|moves| - 1];
      assert m in moves && forall x | x in init :: x in moves;
      AnswerIsGrounded(setup, init);
      ReachFits(setup, init);
      assert moves == init + [m];
      Snoc(setup, init, m);
      if Enabled(Reach(setup, init), m) {
        MoveKeepsGrounded(setup, Reach(setup, init), m);
      }
    }
  }

  // ---- the final report ----

  /** The response of an ended run is its record, and a run that failed leaves no step running. */
  predicate Reports(c: Config) {
    c.Ended? ==>
      var s := c.state;
      && s.response.Some?
      && s.response.value.artifacts == s.artifacts && s.response.value.evidence == s.evidence
      && s.response.value.analysisPlan == s.plan && s.response.value.error == s.error
      && (s.plan.Some? ==>
            && |s.response.value.stepSummaries| == |s.plan.value.steps|
            && (forall i | 0 <= i < |s.plan.value.steps| ::
                  s.response.value.stepSummaries[i] == (s.plan.value.steps[i].stepId, s.plan.value.steps[i].status))
            && (s.error.Some? ==> forall step | step in s.plan.value.steps :: !step.status.StepRunning?))
  }

  lemma FinalizeReports(s: State, env: Env)
    requires s.error.None?
    ensures Finalize(s, env).state.error.None? ==> Reports(Ended(Finalize(s, env).state))
  {
  }

  lemma FailReports(s: State)
    ensures Reports(Ended(FailRun(s).state))
  {
    var t := FailRun(s).state;
    if t.plan.Some? {
      forall step | step in t.plan.value.steps ensures !step.status.StepRunning? {
        var i :| 0 <= i < |t.plan.value.steps| && t.plan.value.steps[i] == step;
      }
    }
  }

  lemma EndsFromTwoNodes(node: Node, s: State)
    requires Landed(node, s).Ended?
    ensures Landed(node, s) == Ended(s) && (node.Fail? || (node.FinalizeRun? && s.error.None?))
  {
  }

  lemma MoveReports(setup: Setup, c: Config, m: Move)
    requires Fits(setup, c) && Reports(c)
    ensures Reports(Next(setup, c, m))
  {
    hide Initialize, Load, Plan, Guard, Execute, Observe, Evaluate, Request, Synthesize, Validate, Persist, Finalize,
         FailRun, Reports;
    if Enabled(c, m) && TurnOf(setup, c, m).Finished? && Next(setup, c, m).Ended? {
      EndsFromTwoNodes(NodeOf(c), TurnOf(setup, c, m).state);
      if NodeOf(c).Fail? {
        FailReports(c.state);
      } else {
        FinalizeReports(c.state, m.env);
      }
    } else {
      OnlyEndsReport(Next(setup, c, m), c);
    }
  }

  lemma OnlyEndsReport(next: Config, c: Config)
    requires Reports(c) && (!next.Ended? || next == c)
    ensures Reports(next)
  {
  }

  /** Every run that ends reports its whole record, truthfully. */
  lemma {:induction false} EndedRunReports(setup: Setup, moves: seq<Move>)
    requires MovesValid(moves)
    ensures Reports(Reach(setup, moves))
  {
    hide Next, Fits;
    if moves != [] {
      var init, m := moves[..|moves| - 1], moves[|moves| - 1];
      assert forall x | x in init :: x in moves;
      EndedRunReports(setup, init);
      ReachFits(setup, init);
      MoveReports(setup, Reach(setup, init), m);
    }
  }
}
