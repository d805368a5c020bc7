/**
 * What the screen of an ended run shows of the run's record: its plan and response, every recorded
 * artifact and piece of evidence, and beyond them only what a tool brought that was not observed.
 */
module ScreenRecord {
  import opened Outcomes
  import opened AgentModels
  import opened AgentEvaluator
  import opened AgentGuard
  import opened AgentReducers
  import opened AgentRouting
  import opened AnalysisGraph
  import opened PlanGraph
  import opened RunRecord
  import opened GraphStream
  import Client = RunReplica
  import Log = RunEventStore

  // ---- what a run has said its tools brought ----

  /** The artifact ids that completed tools brought. */
  function ArtifactsBrought(said: seq<EventData>): set<string> {
    set d, a | d in said && d.ToolCompleted? && a in d.artifacts :: a.artifactId
  }

  function EvidenceBrought(said: seq<EventData>): set<string> {
    set d, e | d in said && d.ToolCompleted? && e in d.evidence :: e.evidenceId
  }

  function ArtifactIdSet(items: seq<ArtifactRef>): set<string> {
    set a | a in items :: a.artifactId
  }

  function EvidenceIdSet(items: seq<EvidenceRef>): set<string> {
    set e | e in items :: e.evidenceId
  }

  /** What a completed tool brought and no node has recorded yet. */
  function Unobserved(s: State): (seq<ArtifactRef>, seq<EvidenceRef>) {
    if s.pendingObservation.None? then ([], [])
    else (s.pendingObservation.value.artifactRefs, s.pendingObservation.value.evidenceRefs)
  }

  /** The tools brought what is recorded and what is still unobserved; without a plan none was announced. */
  ghost predicate Brings(s: State, said: seq<EventData>) {
    && ArtifactsBrought(said) == ArtifactIdSet(s.artifacts) + ArtifactIdSet(Unobserved(s).0)
    && EvidenceBrought(said) == EvidenceIdSet(s.evidence) + EvidenceIdSet(Unobserved(s).1)
    && (s.plan.None? ==> forall d | d in said :: !d.PlanUpdated?)
    && UniqueIds(s.artifacts, ArtifactKey) && UniqueIds(s.evidence, EvidenceKey)
  }

  /** An observation waits only where it is recorded next, or in a run that failed. */
  ghost predicate BroughtAt(c: Config, said: seq<EventData>) {
    && Brings(c.state, said)
    && (c.At? && c.state.error.None? && !c.node.ObserveResult? ==> c.state.pendingObservation.None?)
    && (c.Paused? ==> c.state.pendingObservation.None?)
  }

  /** Nothing recorded, nothing brought and no plan announced. */
  predicate LeavesRecord(s: State, t: Turn) {
    t.Finished? ==>
      && t.state.artifacts == s.artifacts && t.state.evidence == s.evidence
      && t.state.pendingObservation == s.pendingObservation && (t.state.plan.None? <==> s.plan.None?)
      && forall d | d in t.payloads :: !d.ToolCompleted? && !d.PlanUpdated?
  }

  lemma EarlyLeaveRecord(setup: Setup, s: State, env: Env)
    ensures LeavesRecord(INITIAL, Initialize(setup, INITIAL, env))
    ensures LeavesRecord(s, Load(s, env))
    ensures LeavesRecord(s, Guard(setup, s, env))
  {
    hide EnsureNodeEntry, GuardPlannerDecision;
  }

  lemma EvaluateLeavesRecord(setup: Setup, s: State, env: Env)
    ensures LeavesRecord(s, Evaluate(setup, s, env))
  {
    hide EnsureNodeEntry, ProgressDecision, Consume;
  }

  lemma RequestLeavesRecord(setup: Setup, s: State, env: Env, resume: Option<ResumeValue>)
    ensures LeavesRecord(s, Request(setup, s, env, resume))
  {
    hide EnsureNodeEntry, ResumeMessage, FingerprintOf;
  }

  lemma SynthesizeLeavesRecord(setup: Setup, s: State, env: Env)
    ensures LeavesRecord(s, Synthesize(setup, s, env))
  {
    hide EnsureNodeEntry, Consume, EvidenceIds;
    var t := Synthesize(setup, s, env);
    assert |t.payloads| <= 1;
    assert t.payloads == [] || t.payloads[0].AnswerSynthesizing?;
  }

  lemma LateLeaveRecord(s: State, env: Env)
    ensures LeavesRecord(s, Validate(s, env))
    ensures LeavesRecord(s, Persist(s, env))
    ensures LeavesRecord(s, Finalize(s, env))
    ensures LeavesRecord(s, FailRun(s))
  {
    hide EnsureNodeEntry, Respond, BlockRunning, EvidenceIds;
  }

  lemma OthersLeaveRecord(setup: Setup, node: Node, s: State, env: Env, resume: Option<ResumeValue>)
    requires Ready(setup, node, s) && node !in {PlanOrReplan, ExecuteTool, ObserveResult}
    ensures LeavesRecord(s, RunNode(setup, node, s, env, resume))
  {
    hide Initialize, Load, Guard, Evaluate, Request, Synthesize, Validate, Persist, Finalize, FailRun;
    EarlyLeaveRecord(setup, s, env);
    EvaluateLeavesRecord(setup, s, env);
    RequestLeavesRecord(setup, s, env, resume);
    SynthesizeLeavesRecord(setup, s, env);
    LateLeaveRecord(s, env);
  }

  /** Planning announces a plan only when it leaves one. */
  lemma PlanLeavesRecord(setup: Setup, s: State, env: Env)
    requires Live(setup, s)
    ensures var t := Plan(setup, s, env);
            && t.Finished?
            && t.state.artifacts == s.artifacts && t.state.evidence == s.evidence
            && t.state.pendingObservation == s.pendingObservation
            && (forall d | d in t.payloads :: !d.ToolCompleted?)
            && (if t.payloads == [] then t.state.plan == s.plan else t.state.plan.Some?)
  {
    PlanGoesAheadIff(setup, s, env);
    hide Plan, PlanGoesAhead, DecisionOf, SetStatus;
  }

  /** A tool that answers is announced with what it brought, which then waits to be observed. */
  lemma ExecuteBringsRecord(setup: Setup, s: State, env: Env)
    ensures var t := Execute(setup, s, env);
            && t.Finished?
            && t.state.artifacts == s.artifacts && t.state.evidence == s.evidence && t.state.plan == s.plan
            && (forall d | d in t.payloads :: !d.PlanUpdated?)
            && if t.state.pendingObservation == s.pendingObservation
               && (forall d | d in t.payloads :: !d.ToolCompleted?)
               then t.state.error.Some?
               else && t.state.error == s.error && t.state.nextRoute == Some(ObserveResult)
                    && |t.payloads| == 2 && t.payloads[0].ToolStarted? && t.payloads[1].ToolCompleted?
                    && Unobserved(t.state) == (t.payloads[1].artifacts, t.payloads[1].evidence)
  {
    hide EnsureNodeEntry, Consume, CountersOf;
    var t := Execute(setup, s, env);
    assert |t.payloads| == 2 ==> t.payloads[1] in t.payloads;
  }

  lemma MergedIds(items: seq<ArtifactRef>, updates: seq<ArtifactRef>)
    requires UniqueIds(items, ArtifactKey) && MergeAll(items, ArtifactKey, updates).Returned?
    ensures UniqueIds(MergeAll(items, ArtifactKey, updates).value, ArtifactKey)
    ensures ArtifactIdSet(MergeAll(items, ArtifactKey, updates).value) == ArtifactIdSet(items) + ArtifactIdSet(updates)
  {
    MergeAllMeans(items, ArtifactKey, updates);
  }

  lemma MergedEvidenceIds(items: seq<EvidenceRef>, updates: seq<EvidenceRef>)
    requires UniqueIds(items, EvidenceKey) && MergeAll(items, EvidenceKey, updates).Returned?
    ensures UniqueIds(MergeAll(items, EvidenceKey, updates).value, EvidenceKey)
    ensures EvidenceIdSet(MergeAll(items, EvidenceKey, updates).value) == EvidenceIdSet(items) + EvidenceIdSet(updates)
  {
    MergeAllMeans(items, EvidenceKey, updates);
  }

  /** Observing records what waited, or fails and leaves it waiting. */
  lemma ObserveRecordsIds(setup: Setup, s: State, env: Env)
    requires Ready(setup, ObserveResult, s) && Observe(s, env).Finished?
    ensures var t := Observe(s, env);
            && (t.state.plan.None? <==> s.plan.None?)
            && (forall d | d in t.payloads :: !d.ToolCompleted? && !d.PlanUpdated?)
            && if t.state.error.Some? then
                 t.state.artifacts == s.artifacts && t.state.evidence == s.evidence
                 && t.state.pendingObservation == s.pendingObservation
               else
                 && t.state.pendingObservation.None?
                 && UniqueIds(t.state.artifacts, ArtifactKey) && UniqueIds(t.state.evidence, EvidenceKey)
                 && ArtifactIdSet(t.state.artifacts) == ArtifactIdSet(s.artifacts) + ArtifactIdSet(Unobserved(s).0)
                 && EvidenceIdSet(t.state.evidence) == EvidenceIdSet(s.evidence) + EvidenceIdSet(Unobserved(s).1)
  {
    var t := Observe(s, env);
    if t.state.error.None? {
      MergedIds(s.artifacts, s.pendingObservation.value.artifactRefs);
      MergedEvidenceIds(s.evidence, s.pendingObservation.value.evidenceRefs);
    }
    hide MergeAll, SetStatus, UniqueIds, ValidObservation, BudgetChain;
  }

  // ---- over a run ----

  lemma BroughtMore(said: seq<EventData>, payloads: seq<EventData>)
    ensures ArtifactsBrought(said + payloads) == ArtifactsBrought(said) + ArtifactsBrought(payloads)
    ensures EvidenceBrought(said + payloads) == EvidenceBrought(said) + EvidenceBrought(payloads)
  {
  }

  lemma NothingBrought(payloads: seq<EventData>)
    requires forall d | d in payloads :: !d.ToolCompleted?
    ensures ArtifactsBrought(payloads) == {} && EvidenceBrought(payloads) == {}
  {
  }

  lemma OneBrought(payloads: seq<EventData>)
    requires |payloads| == 2 && !payloads[0].ToolCompleted? && payloads[1].ToolCompleted?
    ensures ArtifactsBrought(payloads) == ArtifactIdSet(payloads[1].artifacts)
    ensures EvidenceBrought(payloads) == EvidenceIdSet(payloads[1].evidence)
  {
    assert payloads[1] in payloads;
    forall id ensures id in ArtifactsBrought(payloads) <==> id in ArtifactIdSet(payloads[1].artifacts) {
    }
    forall id ensures id in EvidenceBrought(payloads) <==> id in EvidenceIdSet(payloads[1].evidence) {
    }
  }

  lemma ExecuteBrings(setup: Setup, s: State, env: Env, said: seq<EventData>)
    requires Brings(s, said) && s.pendingObservation.None?
    ensures Brings(Execute(setup, s, env).state, said + Execute(setup, s, env).payloads)
  {
    hide Execute, ArtifactsBrought, EvidenceBrought, ArtifactIdSet, EvidenceIdSet, UniqueIds;
    var t := Execute(setup, s, env);
    ExecuteBringsRecord(setup, s, env);
    BroughtMore(said, t.payloads);
    NothingUnobserved(s);
    if |t.payloads| == 2 && t.payloads[1].ToolCompleted? {
      OneBrought(t.payloads);
    } else {
      NothingBrought(t.payloads);
    }
  }

  lemma ObserveBrings(setup: Setup, s: State, env: Env, said: seq<EventData>)
    requires Ready(setup, ObserveResult, s) && Observe(s, env).Finished? && Brings(s, said)
    ensures Brings(Observe(s, env).state, said + Observe(s, env).payloads)
  {
    var t := Observe(s, env);
    ObserveRecordsIds(setup, s, env);
    BroughtMore(said, t.payloads);
    NothingBrought(t.payloads);
    NothingUnobserved(t.state);
    hide Observe, ArtifactsBrought, EvidenceBrought, ArtifactIdSet, EvidenceIdSet, UniqueIds, Ready;
  }

  // A turn that leaves the record alone.
  lemma SameBrings(s: State, t: State, said: seq<EventData>, payloads: seq<EventData>)
    requires Brings(s, said) && forall d | d in payloads :: !d.ToolCompleted?
    requires t.artifacts == s.artifacts && t.evidence == s.evidence && t.pendingObservation == s.pendingObservation
    requires t.plan.None? ==> s.plan.None? && forall d | d in payloads :: !d.PlanUpdated?
    ensures Brings(t, said + payloads)
  {
    BroughtMore(said, payloads);
    NothingBrought(payloads);
    hide ArtifactsBrought, EvidenceBrought, ArtifactIdSet, EvidenceIdSet, UniqueIds;
  }

  lemma TurnBrings(setup: Setup, c: Config, m: Move, said: seq<EventData>)
    requires Fits(setup, c) && Enabled(c, m) && TurnOf(setup, c, m).Finished? && BroughtAt(c, said)
    ensures Brings(TurnOf(setup, c, m).state, said + TurnOf(setup, c, m).payloads)
  {
    hide Initialize, Load, Plan, Guard, Execute, Observe, Evaluate, Request, Synthesize, Validate, Persist, Finalize,
         FailRun;
    hide Brings, UniqueIds, BudgetChain;
    var node, s, t := NodeOf(c), c.state, TurnOf(setup, c, m);
    if node.PlanOrReplan? {
      PlanLeavesRecord(setup, s, m.env);
      SameBrings(s, t.state, said, t.payloads);
    } else if node.ExecuteTool? {
      ExecuteBrings(setup, s, m.env, said);
    } else if node.ObserveResult? {
      ObserveBrings(setup, s, m.env, said);
    } else {
      OthersLeaveRecord(setup, node, s, m.env, if m.Resume? then Some(m.value) else None);
      SameBrings(s, t.state, said, t.payloads);
    }
  }

  lemma NothingUnobserved(s: State)
    ensures s.pendingObservation.None? ==> ArtifactIdSet(Unobserved(s).0) == {} && EvidenceIdSet(Unobserved(s).1) == {}
  {
  }

  // Where a waiting observation can be after a turn.
  lemma TurnWaits(setup: Setup, c: Config, m: Move, said: seq<EventData>)
    requires Fits(setup, c) && Enabled(c, m) && EnvValid(m.env) && TurnOf(setup, c, m).Finished? && BroughtAt(c, said)
    ensures var next := Next(setup, c, m);
            && (next.At? && next.state.error.None? && !next.node.ObserveResult? ==> next.state.pendingObservation.None?)
            && !next.Paused?
  {
    var node, s, t := NodeOf(c), c.state, TurnOf(setup, c, m);
    LandedIs(node, t.state);
    NeverPaused(node, t.state);
    if s.error.Some? {
      ErrorStays(setup, c, m);
    } else {
      hide Initialize, Load, Plan, Guard, Execute, Observe, Evaluate, Request, Synthesize, Validate, Persist, Finalize,
           FailRun;
      hide Brings;
      if node.PlanOrReplan? {
        PlanLeavesRecord(setup, s, m.env);
      } else if node.ExecuteTool? {
        ExecuteBringsRecord(setup, s, m.env);
        ExecuteGoesToObserve(t.state);
      } else if node.ObserveResult? {
        ObserveRecordsIds(setup, s, m.env);
      } else {
        OthersLeaveRecord(setup, node, s, m.env, if m.Resume? then Some(m.value) else None);
      }
    }
  }

  lemma NeverPaused(node: Node, s: State)
    ensures !Landed(node, s).Paused?
  {
  }

  lemma ExecuteGoesToObserve(s: State)
    ensures s.error.None? && s.nextRoute == Some(ObserveResult) ==> Landed(ExecuteTool, s) == At(ObserveResult, s)
  {
  }

  lemma MoveBrings(setup: Setup, c: Config, m: Move, said: seq<EventData>)
    requires Fits(setup, c) && EnvValid(m.env) && BroughtAt(c, said)
    ensures BroughtAt(Next(setup, c, m), said + SaidBy(setup, c, m))
  {
    hide RunNode, Brings, EnvValid;
    if !Enabled(c, m) {
      assert said + [] == said;
    } else if TurnOf(setup, c, m).Finished? {
      TurnBrings(setup, c, m, said);
      TurnWaits(setup, c, m, said);
      LandedIs(NodeOf(c), TurnOf(setup, c, m).state);
    } else {
      StoppedBrings(setup, c, m, said);
    }
  }

  // An interrupt says nothing, and a crash only what it could not record.
  lemma StoppedBrings(setup: Setup, c: Config, m: Move, said: seq<EventData>)
    requires Fits(setup, c) && EnvValid(m.env) && Enabled(c, m) && !TurnOf(setup, c, m).Finished? && BroughtAt(c, said)
    ensures BroughtAt(Next(setup, c, m), said + SaidBy(setup, c, m))
  {
    hide Initialize, Load, Plan, Guard, Execute, Observe, Evaluate, Synthesize, Validate, Persist, Finalize, FailRun;
    MoveOk(setup, c, m);
    var t := TurnOf(setup, c, m);
    if t.Crash? {
      CrashBringsNothing(c.state, m.env);
      BroughtMore(said, t.payloads);
      NothingBrought(t.payloads);
    } else {
      assert said + [] == said;
    }
    hide ArtifactsBrought, EvidenceBrought, ArtifactIdSet, EvidenceIdSet, Request;
  }

  lemma CrashBringsNothing(s: State, env: Env)
    requires Observe(s, env).Crash?
    ensures forall d | d in Observe(s, env).payloads :: !d.ToolCompleted? && !d.PlanUpdated?
  {
  }

  lemma NothingBroughtYet()
    ensures BroughtAt(At(InitializeRun, INITIAL), [])
  {
  }

  /**
   * In every reachable state, what completed tools brought is what is recorded and what the last of
   * them left unobserved.
   */
  lemma {:induction false} RunBrings(setup: Setup, moves: seq<Move>)
    requires MovesValid(moves)
    ensures BroughtAt(Reach(setup, moves), Said(setup, moves))
  {
    hide Next, Fits, EnvValid, BroughtAt, SaidBy;
    if moves == [] {
      NothingBroughtYet();
    } else {
      var init, m := moves[..|moves| - 1], moves[|moves| - 1];
      assert m in moves && forall x | x in init :: x in moves;
      RunBrings(setup, init);
      ReachFits(setup, init);
      MoveBrings(setup, Reach(setup, init), m, Said(setup, init));
    }
  }

  // ---- the stream says what the run said ----

  predicate SaidIn(events: seq<AgentEvent>, d: EventData) {
    exists e | e in events :: e.data == d
  }

  /** A payload that neither waits nor ends the run is in the stream exactly when it was emitted. */
  lemma {:induction false} StreamSays(runId: string, items: seq<Item>, d: EventData)
    requires Plain(d) && FeedAll(runId, 0, EMPTY, items).error.None?
    ensures SaidIn(FeedAll(runId, 0, EMPTY, items).events, d) <==> Custom(d) in items
    ensures FeedAll(runId, 0, EMPTY, items).pending.Some? ==> IsTerminal(FeedAll(runId, 0, EMPTY, items).pending.value)
  {
    if items != [] {
      var init, item := items[..|items| - 1], items[|items| - 1];
      var t := FeedAll(runId, 0, EMPTY, init);
      StreamSays(runId, init, d);
      assert items == init + [item];
      FeedSays(runId, t, item, d);
    }
  }

  lemma FeedSays(runId: string, t: Translation, item: Item, d: EventData)
    requires Plain(d) && t.error.None? && (t.pending.Some? ==> IsTerminal(t.pending.value))
    ensures var u := Feed(runId, 0, t, item);
            && (SaidIn(u.events, d) <==> SaidIn(t.events, d) || item == Custom(d))
            && (u.pending.Some? ==> IsTerminal(u.pending.value))
  {
    var u := Feed(runId, 0, t, item);
    if u.events != t.events {
      var e := u.events[|t.events|];
      assert u.events == t.events + [e];
      if SaidIn(t.events, d) {
        var x :| x in t.events && x.data == d;
        assert x in u.events;
      }
      assert e in u.events;
    }
  }

  lemma {:induction false} ItemsSay(setup: Setup, moves: seq<Move>, d: EventData)
    ensures Custom(d) in RunItems(setup, moves) <==> d in Said(setup, moves)
  {
    hide Reach;
    if moves != [] {
      var init, m := moves[..|moves| - 1], moves[|moves| - 1];
      ItemsSay(setup, init, d);
      if Enabled(Reach(setup, init), m) {
        TurnSays(TurnOf(setup, Reach(setup, init), m), d);
      }
    }
  }

  lemma TurnSays(t: Turn, d: EventData)
    ensures Custom(d) in ItemsOf(t) <==> !t.Pause? && d in t.payloads
  {
    if !t.Pause? {
      assert forall i | 0 <= i < |t.payloads| :: Customs(t.payloads)[i] == Custom(t.payloads[i]);
      if d in t.payloads {
        var i :| 0 <= i < |t.payloads| && t.payloads[i] == d;
        assert Customs(t.payloads)[i] in Customs(t.payloads);
      }
    }
  }

  /** The events of a run say what its nodes said. */
  lemma RunIsSaid(setup: Setup, moves: seq<Move>, d: EventData)
    requires Proper(setup, moves) && Plain(d) && !Reach(setup, moves).Crashed?
    ensures SaidIn(Published(setup, moves), d) <==> d in Said(setup, moves)
  {
    hide Proper, Reach, FeedAll;
    StreamIsAccepted(setup, moves);
    StreamSays(setup.runId, RunItems(setup, moves), d);
    ItemsSay(setup, moves, d);
  }

  // ---- what the browser keeps ----

  predicate HasKey<T(==, !new)>(items: seq<T>, key: T -> string, id: string) {
    exists x | x in items :: key(x) == id
  }

  lemma {:induction false} PutHas<T(!new)>(items: seq<T>, item: T, key: T -> string, id: string)
    ensures HasKey(Client.Put(items, item, key), key, id) <==> HasKey(items, key, id) || key(item) == id
  {
    var r := Client.Put(items, item, key);
    if items == [] {
      assert item in r;
    } else if key(items[0]) == key(item) {
      assert r == [item] + items[1..] && items == [items[0]] + items[1..];
      HasCons(item, items[1..], key, id);
      HasCons(items[0], items[1..], key, id);
    } else {
      PutHas(items[1..], item, key, id);
      assert items == [items[0]] + items[1..];
      HasCons(items[0], Client.Put(items[1..], item, key), key, id);
      HasCons(items[0], items[1..], key, id);
    }
  }

  lemma HasCons<T(!new)>(first: T, rest: seq<T>, key: T -> string, id: string)
    ensures HasKey([first] + rest, key, id) <==> key(first) == id || HasKey(rest, key, id)
  {
    assert first in [first] + rest;
  }

  lemma {:induction false} PutAllHas<T(!new)>(items: seq<T>, additions: seq<T>, key: T -> string, id: string)
    ensures HasKey(Client.PutAll(items, additions, key), key, id) <==>
               HasKey(items, key, id) || HasKey(additions, key, id)
    decreases |additions|
  {
    if additions != [] {
      PutHas(items, additions[0], key, id);
      PutAllHas(Client.Put(items, additions[0], key), additions[1..], key, id);
      assert additions == [additions[0]] + additions[1..];
      HasCons(additions[0], additions[1..], key, id);
    }
  }

  lemma MergeHas<T(!new)>(current: seq<T>, additions: seq<T>, key: T -> string, id: string)
    ensures HasKey(Client.MergeBy(current, additions, key), key, id) <==>
               HasKey(current, key, id) || HasKey(additions, key, id)
  {
    PutAllHas([], current, key, id);
    PutAllHas(Client.PutAll([], current, key), additions, key, id);
  }

  /** An event that brings the artifact: with a completed tool, or in the final response. */
  predicate BringsArtifact(e: AgentEvent, id: string) {
    || (e.data.ToolCompleted? && HasKey(e.data.artifacts, Client.ArtifactKey, id))
    || (e.response.Some? && HasKey(e.response.value.artifacts, Client.ArtifactKey, id))
  }

  predicate BringsEvidence(e: AgentEvent, id: string) {
    || (e.data.ToolCompleted? && HasKey(e.data.evidence, Client.EvidenceKey, id))
    || (e.response.Some? && HasKey(e.response.value.evidence, Client.EvidenceKey, id))
  }

  predicate BringsPlan(e: AgentEvent) {
    e.data.PlanUpdated? || (e.response.Some? && e.response.value.analysisPlan.Some?)
  }

  lemma EventShows(r: Client.Replica, e: AgentEvent, id: string)
    requires ValidEvent(e)
    ensures var after := Client.Apply(Client.Received(r, e), e);
            && (HasKey(after.artifacts, Client.ArtifactKey, id) <==>
                  HasKey(r.artifacts, Client.ArtifactKey, id) || BringsArtifact(e, id))
            && (HasKey(after.evidence, Client.EvidenceKey, id) <==>
                  HasKey(r.evidence, Client.EvidenceKey, id) || BringsEvidence(e, id))
            && (after.plan.Some? <==> r.plan.Some? || BringsPlan(e))
  {
    hide HasKey, Client.MergeBy;
    match e.data {
      case ToolCompleted(_, _, _, artifacts, evidence) =>
        MergeHas(r.artifacts, artifacts, Client.ArtifactKey, id);
        MergeHas(r.evidence, evidence, Client.EvidenceKey, id);
      case RunCompleted =>
        MergeHas(r.artifacts, e.response.value.artifacts, Client.ArtifactKey, id);
        MergeHas(r.evidence, e.response.value.evidence, Client.EvidenceKey, id);
      case RunFailed(_) =>
        MergeHas(r.artifacts, e.response.value.artifacts, Client.ArtifactKey, id);
        MergeHas(r.evidence, e.response.value.evidence, Client.EvidenceKey, id);
      case _ =>
    }
  }

  /** The last event of a stored log is applied to the replica of the log before it. */
  lemma LastApplies(log: seq<AgentEvent>, runId: string)
    requires Client.RunLog(log, runId) && log != []
    ensures var init, e := log[..|log| - 1], log[|log| - 1];
            && Client.RunLog(init, runId) && ValidEvent(e) && Client.ReplicaOf(init).Returned?
            && Client.ReplicaOf(log) == Returned(Client.Apply(Client.Received(Client.ReplicaOf(init).value, e), e))
  {
    var init, e := log[..|log| - 1], log[|log| - 1];
    assert log == init + [e] && e in log;
    Client.RunLogPrefix(log, runId, |init|);
    Client.ReplicaShowsLog(init, runId);
    Client.NextShows(Client.ReplicaOf(init).value, init, e, runId);
  }

  /** The browser shows exactly what some event brought. */
  lemma {:induction false} ReplicaHas(log: seq<AgentEvent>, runId: string, id: string)
    requires Client.RunLog(log, runId)
    ensures Client.ReplicaOf(log).Returned?
    ensures var r := Client.ReplicaOf(log).value;
            && (HasKey(r.artifacts, Client.ArtifactKey, id) <==> exists e | e in log :: BringsArtifact(e, id))
            && (HasKey(r.evidence, Client.EvidenceKey, id) <==> exists e | e in log :: BringsEvidence(e, id))
            && (r.plan.Some? <==> exists e | e in log :: BringsPlan(e))
  {
    if log != [] {
      var init, e := log[..|log| - 1], log[|log| - 1];
      assert log == init + [e];
      LastApplies(log, runId);
      ReplicaHas(init, runId, id);
      hide Client.ReplicaOf, Client.Apply, BringsArtifact, BringsEvidence, BringsPlan, HasKey, Client.RunLog;
      EventShows(Client.ReplicaOf(init).value, e, id);
      assert e in log && forall x | x in init :: x in log;
    }
  }

  // ---- the last event of an ended run ----

  lemma TerminalPublished(runId: string, t: Translation, d: EventData, response: AgentResponse)
    requires t.pending.None? && t.error.None? && IsTerminal(d)
    ensures FeedAll(runId, 0, t, Customs([d]) + [Updated(Some(response))]).events
            == t.events + [AgentEvent(runId, |t.events|, d, Some(response))]
  {
    assert Customs([d]) + [Updated(Some(response))] == [Custom(d), Updated(Some(response))];
    FeedTwo(runId, 0, t, Custom(d), Updated(Some(response)));
  }

  lemma SpeaksClean(runId: string, c: Config, t: Translation, last: Env)
    requires Speaks(runId, c, t, last)
    ensures t.pending.None? && t.error.None?
  {
  }

  lemma FailPublishes(runId: string, s: State, t: Translation)
    requires t.pending.None? && t.error.None?
    ensures var end := FailRun(s);
            var events := FeedAll(runId, 0, t, ItemsOf(end)).events;
            && |events| == |t.events| + 1 && IsTerminal(events[|t.events|].data)
            && events[|t.events|].response.Some? && events[|t.events|].response == end.state.response
  {
    hide FailRun, FeedAll, ItemsOf;
    FailRunSays(s);
    TerminalPublished(runId, t, FailRun(s).payloads[0], FailRun(s).state.response.value);
  }

  lemma FinalizePublishes(runId: string, s: State, env: Env, t: Translation)
    requires t.pending.None? && t.error.None? && Blocked(s, env).None?
    ensures var end := Finalize(s, env);
            var events := FeedAll(runId, 0, t, ItemsOf(end)).events;
            && |events| == |t.events| + 1 && IsTerminal(events[|t.events|].data)
            && events[|t.events|].response.Some? && events[|t.events|].response == end.state.response
  {
    assert Finalize(s, env).Finished?;
    hide Finalize, FeedAll, ItemsOf;
    FinalizeSays(s, env);
    TerminalPublished(runId, t, RunCompleted, Finalize(s, env).state.response.value);
  }

  // Only two nodes end a run, and the last but one only when it is not stopped.
  lemma EndingNode(setup: Setup, c: Config, m: Move)
    requires Enabled(c, m) && Next(setup, c, m).Ended?
    ensures TurnOf(setup, c, m).Finished? && Next(setup, c, m).state == TurnOf(setup, c, m).state
    ensures (NodeOf(c).Fail? && TurnOf(setup, c, m) == FailRun(c.state))
         || (NodeOf(c).FinalizeRun? && TurnOf(setup, c, m) == Finalize(c.state, m.env) && Blocked(c.state, m.env).None?)
  {
    hide Initialize, Load, Plan, Guard, Execute, Observe, Evaluate, Request, Synthesize, Validate, Persist, Finalize,
         FailRun;
    EndsFromTwoNodes(NodeOf(c), TurnOf(setup, c, m).state);
    StoppedFinalize(c.state, m.env);
  }

  lemma StoppedFinalize(s: State, env: Env)
    ensures Blocked(s, env).Some? ==> Finalize(s, env).state.error.Some?
  {
  }

  // The move that ends a run publishes the final response.
  lemma EndingMove(setup: Setup, c: Config, m: Move, t: Translation)
    requires Enabled(c, m) && Next(setup, c, m).Ended? && t.pending.None? && t.error.None?
    ensures var events := FeedAll(setup.runId, 0, t, MoveItems(setup, c, m)).events;
            && |events| == |t.events| + 1 && IsTerminal(events[|t.events|].data)
            && events[|t.events|].response.Some? && events[|t.events|].response == Next(setup, c, m).state.response
  {
    EndingNode(setup, c, m);
    hide TurnOf, FailRun, Finalize, FeedAll, ItemsOf, Next, Blocked;
    if NodeOf(c).Fail? {
      FailPublishes(setup.runId, c.state, t);
    } else {
      FinalizePublishes(setup.runId, c.state, m.env, t);
    }
  }

  lemma EndPublishesResponse(setup: Setup, moves: seq<Move>)
    requires Proper(setup, moves) && Reach(setup, moves).Ended?
    ensures var events := Published(setup, moves);
            && events != [] && IsTerminal(events[|events| - 1].data)
            && events[|events| - 1].response.Some?
               && events[|events| - 1].response == Reach(setup, moves).state.response
            && forall i | 0 <= i < |events| - 1 :: events[i].response.None?
  {
    hide RunTranslation, Proper, Reach;
    LastMoveEnds(setup, moves);
    OnlyLastResponds(setup, moves);
  }

  lemma LastMoveFits(setup: Setup, moves: seq<Move>)
    requires Proper(setup, moves)
    ensures moves != [] && Enabled(Reach(setup, moves[..|moves| - 1]), moves[|moves| - 1])
    ensures |moves| > 1 ==> Proper(setup, moves[..|moves| - 1])
  {
    hide Reach;
    if |moves| > 1 {
      ProperPrefix(setup, moves);
    }
  }

  lemma LastMoveEnds(setup: Setup, moves: seq<Move>)
    requires Proper(setup, moves) && Reach(setup, moves).Ended?
    ensures var events := RunTranslation(setup, moves).events;
            && events != [] && IsTerminal(events[|events| - 1].data)
            && events[|events| - 1].response.Some?
               && events[|events| - 1].response == Reach(setup, moves).state.response
  {
    hide Next, RunTranslation, Speaks, FeedAll, MoveItems, Reach, Proper;
    LastMoveFits(setup, moves);
    var k := |moves| - 1;
    var init, m := moves[..k], moves[k];
    assert moves == init + [m];
    Snoc(setup, init, m);
    TranslationOf(setup, init, m);
    if init == [] {
      StartReached(setup);
      StartDoesNotEnd(setup, m);
    } else {
      RunSpeaks(setup, init);
      SpeaksClean(setup.runId, Reach(setup, init), RunTranslation(setup, init), init[k - 1].env);
      EndingMove(setup, Reach(setup, init), m, RunTranslation(setup, init));
    }
  }

  lemma StartReached(setup: Setup)
    ensures Reach(setup, []) == At(InitializeRun, INITIAL)
  {
  }

  lemma StartDoesNotEnd(setup: Setup, m: Move)
    ensures !Next(setup, At(InitializeRun, INITIAL), m).Ended?
  {
  }

  lemma OnlyLastResponds(setup: Setup, moves: seq<Move>)
    requires Proper(setup, moves)
    ensures var events := Published(setup, moves); forall i | 0 <= i < |events| - 1 :: events[i].response.None?
  {
    hide Reach, Published, Proper;
    StreamIsAccepted(setup, moves);
    var events := Published(setup, moves);
    forall i | 0 <= i < |events| - 1 ensures events[i].response.None? {
      OneTerminalEvent(setup, moves, i);
      assert events[i] in events && ValidEvent(events[i]);
    }
  }

  // ---- the screen ----

  /** The replica after the final response shows it, its plan, and all of its record. */
  lemma ResponseShown(r: Client.Replica, e: AgentEvent)
    requires ValidEvent(e) && IsTerminal(e.data)
    requires e.data.RunFailed? && e.response.value.analysisPlan.Some? ==>
               forall s | s in e.response.value.analysisPlan.value.steps :: !s.status.StepRunning?
    requires UniqueIds(e.response.value.artifacts, ArtifactKey) && UniqueIds(e.response.value.evidence, EvidenceKey)
    ensures var after, response := Client.Apply(Client.Received(r, e), e), e.response.value;
            && after.response == Some(response)
            && (response.analysisPlan.Some? ==> after.plan == response.analysisPlan)
            && (forall a | a in response.artifacts :: a in after.artifacts)
            && (forall x | x in response.evidence :: x in after.evidence)
  {
    var received, response := Client.Received(r, e), e.response.value;
    var shown := Client.ApplyResponse(received, response);
    forall a | a in response.artifacts ensures a in shown.artifacts {
      Client.MergeKeepsLast(received.artifacts, response.artifacts, Client.ArtifactKey, a);
      Client.LastOfConcat(received.artifacts, response.artifacts, a.artifactId, Client.ArtifactKey);
      LastIsOnly(response.artifacts, Client.ArtifactKey, a);
    }
    forall x | x in response.evidence ensures x in shown.evidence {
      Client.MergeKeepsLast(received.evidence, response.evidence, Client.EvidenceKey, x);
      Client.LastOfConcat(received.evidence, response.evidence, x.evidenceId, Client.EvidenceKey);
      LastIsOnly(response.evidence, Client.EvidenceKey, x);
    }
    if e.data.RunFailed? && response.analysisPlan.Some? {
      NoStepBlocked(response.analysisPlan);
    }
    hide Client.MergeBy;
  }

  lemma {:induction false} LastIsOnly<T(!new)>(items: seq<T>, key: T -> string, x: T)
    requires x in items && forall i, j | 0 <= i < j < |items| :: key(items[i]) != key(items[j])
    ensures Client.LastWith(items, key(x), key) == Some(x)
  {
    var n := |items| - 1;
    if items[n] != x {
      var i :| 0 <= i < |items| && items[i] == x;
      assert key(items[i]) != key(items[n]);
      assert items[..n][i] == x;
      LastIsOnly(items[..n], key, x);
    }
  }

  lemma NoStepBlocked(plan: Option<AnalysisPlan>)
    requires plan.Some? && forall s | s in plan.value.steps :: !s.status.StepRunning?
    ensures Client.MarkSteps(plan, Client.Blocked) == plan
  {
    var after := Client.MarkSteps(plan, Client.Blocked).value.steps;
    forall i | 0 <= i < |after| ensures after[i] == plan.value.steps[i] {
      assert plan.value.steps[i] in plan.value.steps;
    }
    assert after == plan.value.steps;
  }

  function LastOf(events: seq<AgentEvent>): AgentEvent
    requires events != []
  {
    events[|events| - 1]
  }

  lemma HasIds(artifacts: seq<ArtifactRef>, evidence: seq<EvidenceRef>, id: string)
    ensures HasKey(artifacts, Client.ArtifactKey, id) <==> id in ArtifactIdSet(artifacts)
    ensures HasKey(evidence, Client.EvidenceKey, id) <==> id in EvidenceIdSet(evidence)
  {
    if HasKey(artifacts, Client.ArtifactKey, id) {
      var a :| a in artifacts && Client.ArtifactKey(a) == id;
      assert a.artifactId in ArtifactIdSet(artifacts);
    }
    if HasKey(evidence, Client.EvidenceKey, id) {
      var e :| e in evidence && Client.EvidenceKey(e) == id;
      assert e.evidenceId in EvidenceIdSet(evidence);
    }
    if id in ArtifactIdSet(artifacts) {
      var a :| a in artifacts && a.artifactId == id;
      assert Client.ArtifactKey(a) == id;
    }
    if id in EvidenceIdSet(evidence) {
      var e :| e in evidence && e.evidenceId == id;
      assert Client.EvidenceKey(e) == id;
    }
  }

  /** The events of an ended run bring what its tools brought and what it recorded. */
  lemma EventsBring(setup: Setup, moves: seq<Move>, id: string)
    requires Proper(setup, moves) && Reach(setup, moves).Ended? && Reach(setup, moves).state.response.Some?
    ensures var events, said := Published(setup, moves), Said(setup, moves);
            var response := Reach(setup, moves).state.response.value;
            && ((exists e | e in events :: BringsArtifact(e, id)) <==>
                  id in ArtifactsBrought(said) || id in ArtifactIdSet(response.artifacts))
            && ((exists e | e in events :: BringsEvidence(e, id)) <==>
                  id in EvidenceBrought(said) || id in EvidenceIdSet(response.evidence))
            && ((exists e | e in events :: BringsPlan(e)) <==>
                  (exists d | d in said :: d.PlanUpdated?) || response.analysisPlan.Some?)
  {
    hide Published, Said, Proper, Reach, BringsArtifact, BringsEvidence, BringsPlan, SaidIn, ArtifactsBrought,
         EvidenceBrought;
    EndPublishesResponse(setup, moves);
    var events, said := Published(setup, moves), Said(setup, moves);
    forall d: EventData | d.ToolCompleted? || d.PlanUpdated? ensures SaidIn(events, d) <==> d in said {
      RunIsSaid(setup, moves, d);
    }
    EventsBringSaid(events, said, id);
  }

  lemma EventsBringSaid(events: seq<AgentEvent>, said: seq<EventData>, id: string)
    requires events != [] && IsTerminal(LastOf(events).data) && LastOf(events).response.Some?
    requires forall i | 0 <= i < |events| - 1 :: events[i].response.None?
    requires forall d: EventData | d.ToolCompleted? || d.PlanUpdated? :: SaidIn(events, d) <==> d in said
    ensures var response := LastOf(events).response.value;
            && ((exists e | e in events :: BringsArtifact(e, id)) <==>
                  id in ArtifactsBrought(said) || id in ArtifactIdSet(response.artifacts))
            && ((exists e | e in events :: BringsEvidence(e, id)) <==>
                  id in EvidenceBrought(said) || id in EvidenceIdSet(response.evidence))
            && ((exists e | e in events :: BringsPlan(e)) <==>
                  (exists d | d in said :: d.PlanUpdated?) || response.analysisPlan.Some?)
  {
    ArtifactsBringSaid(events, said, id);
    EvidenceBringsSaid(events, said, id);
    PlansBringSaid(events, said);
  }

  lemma OnlyLast(events: seq<AgentEvent>, e: AgentEvent)
    requires events != [] && e in events && e.response.Some?
    requires forall i | 0 <= i < |events| - 1 :: events[i].response.None?
    ensures e == LastOf(events)
  {
  }

  lemma ArtifactsBringSaid(events: seq<AgentEvent>, said: seq<EventData>, id: string)
    requires events != [] && LastOf(events).response.Some?
    requires forall i | 0 <= i < |events| - 1 :: events[i].response.None?
    requires forall d: EventData | d.ToolCompleted? || d.PlanUpdated? :: SaidIn(events, d) <==> d in said
    ensures (exists e | e in events :: BringsArtifact(e, id)) <==>
              id in ArtifactsBrought(said) || id in ArtifactIdSet(LastOf(events).response.value.artifacts)
  {
    if e :| e in events && BringsArtifact(e, id) {
      if e.data.ToolCompleted? && HasKey(e.data.artifacts, Client.ArtifactKey, id) {
        HasIds(e.data.artifacts, [], id);
        assert SaidIn(events, e.data) && e.data in said;
      } else {
        OnlyLast(events, e);
        HasIds(e.response.value.artifacts, [], id);
      }
    }
    if id in ArtifactsBrought(said) {
      var d, a :| d in said && d.ToolCompleted? && a in d.artifacts && a.artifactId == id;
      HasIds(d.artifacts, [], id);
      assert SaidIn(events, d);
      var e :| e in events && e.data == d;
      assert BringsArtifact(e, id);
    }
    if id in ArtifactIdSet(LastOf(events).response.value.artifacts) {
      HasIds(LastOf(events).response.value.artifacts, [], id);
      assert LastOf(events) in events && BringsArtifact(LastOf(events), id);
    }
  }

  lemma EvidenceBringsSaid(events: seq<AgentEvent>, said: seq<EventData>, id: string)
    requires events != [] && LastOf(events).response.Some?
    requires forall i | 0 <= i < |events| - 1 :: events[i].response.None?
    requires forall d: EventData | d.ToolCompleted? || d.PlanUpdated? :: SaidIn(events, d) <==> d in said
    ensures (exists e | e in events :: BringsEvidence(e, id)) <==>
              id in EvidenceBrought(said) || id in EvidenceIdSet(LastOf(events).response.value.evidence)
  {
    if e :| e in events && BringsEvidence(e, id) {
      if e.data.ToolCompleted? && HasKey(e.data.evidence, Client.EvidenceKey, id) {
        HasIds([], e.data.evidence, id);
        assert SaidIn(events, e.data) && e.data in said;
      } else {
        OnlyLast(events, e);
        HasIds([], e.response.value.evidence, id);
      }
    }
    if id in EvidenceBrought(said) {
      var d, x :| d in said && d.ToolCompleted? && x in d.evidence && x.evidenceId == id;
      HasIds([], d.evidence, id);
      assert SaidIn(events, d);
      var e :| e in events && e.data == d;
      assert BringsEvidence(e, id);
    }
    if id in EvidenceIdSet(LastOf(events).response.value.evidence) {
      HasIds([], LastOf(events).response.value.evidence, id);
      assert LastOf(events) in events && BringsEvidence(LastOf(events), id);
    }
  }

  lemma PlansBringSaid(events: seq<AgentEvent>, said: seq<EventData>)
    requires events != [] && LastOf(events).response.Some?
    requires forall i | 0 <= i < |events| - 1 :: events[i].response.None?
    requires forall d: EventData | d.ToolCompleted? || d.PlanUpdated? :: SaidIn(events, d) <==> d in said
    ensures (exists e | e in events :: BringsPlan(e)) <==>
              (exists d | d in said :: d.PlanUpdated?) || LastOf(events).response.value.analysisPlan.Some?
  {
    if e :| e in events && BringsPlan(e) {
      if e.data.PlanUpdated? {
        assert SaidIn(events, e.data) && e.data in said;
      } else {
        OnlyLast(events, e);
      }
    }
    if d :| d in said && d.PlanUpdated? {
      assert SaidIn(events, d);
      var e :| e in events && e.data == d;
      assert BringsPlan(e);
    }
    assert LastOf(events) in events;
  }

  /**
   * From an ended run's events, in any order and with any repetitions, the browser shows the run's
   * response and plan and every recorded artifact and piece of evidence. It shows what is recorded and
   * what the last tool brought when the run was stopped before that was observed.
   */
  lemma EndedScreenShowsRecord(setup: Setup, moves: seq<Move>, received: seq<AgentEvent>)
    requires Proper(setup, moves) && setup.runId != "" && Reach(setup, moves).Ended?
    requires forall e :: e in received <==> e in Published(setup, moves)
    ensures Client.AllValid(received) && Client.HydrateRun(received).Returned?
    ensures var r, s := Client.HydrateRun(received).value, Reach(setup, moves).state;
            && s.response.Some? && r.response == s.response && r.plan == s.plan
            && (forall a | a in s.artifacts :: a in r.artifacts)
            && (forall e | e in s.evidence :: e in r.evidence)
            && ArtifactIdSet(r.artifacts) == ArtifactIdSet(s.artifacts) + ArtifactIdSet(Unobserved(s).0)
            && EvidenceIdSet(r.evidence) == EvidenceIdSet(s.evidence) + EvidenceIdSet(Unobserved(s).1)
  {
    hide Published, Reach, Proper, Said, Brings, Client.RunLog, Client.ReplicaOf, Client.HydrateRun, HasKey;
    EndedLog(setup, moves);
    var log, s := Published(setup, moves), Reach(setup, moves).state;
    Client.HydrateIsReplica(log, setup.runId, received);
    EndedResponseShown(setup, moves);
    var r := Client.ReplicaOf(log).value;
    forall id
      ensures id in ArtifactIdSet(r.artifacts) <==>
                 id in ArtifactIdSet(s.artifacts) || id in ArtifactIdSet(Unobserved(s).0)
      ensures id in EvidenceIdSet(r.evidence) <==>
                 id in EvidenceIdSet(s.evidence) || id in EvidenceIdSet(Unobserved(s).1)
    {
      EndedIdsShown(setup, moves, id);
    }
    hide ArtifactIdSet, EvidenceIdSet, Unobserved;
  }

  lemma EndedLog(setup: Setup, moves: seq<Move>)
    requires Proper(setup, moves) && setup.runId != "" && Reach(setup, moves).Ended?
    ensures Client.RunLog(Published(setup, moves), setup.runId) && Published(setup, moves) != []
    ensures Client.ReplicaOf(Published(setup, moves)).Returned?
    ensures Reach(setup, moves).state.response.Some? && Reports(Reach(setup, moves)) && MovesValid(moves)
    ensures BroughtAt(Reach(setup, moves), Said(setup, moves))
  {
    hide Published, Reach, Said, BroughtAt, Reports, EnvValid;
    ProperIsValid(setup, moves);
    StreamIsAccepted(setup, moves);
    ProperFits(setup, moves);
    EndedRunReports(setup, moves);
    RunBrings(setup, moves);
    Client.ReplicaShowsLog(Published(setup, moves), setup.runId);
  }

  lemma EndedResponseShown(setup: Setup, moves: seq<Move>)
    requires Proper(setup, moves) && setup.runId != "" && Reach(setup, moves).Ended?
    ensures Client.AllValid(Published(setup, moves)) && Client.ReplicaOf(Published(setup, moves)).Returned?
    ensures var r, s := Client.ReplicaOf(Published(setup, moves)).value, Reach(setup, moves).state;
            && s.response.Some? && r.response == s.response && r.plan == s.plan
            && (forall a | a in s.artifacts :: a in r.artifacts)
            && (forall e | e in s.evidence :: e in r.evidence)
  {
    hide Published, Reach, Proper, Said, Client.ReplicaOf, ArtifactsBrought, EvidenceBrought, Client.Apply,
         Client.Received;
    EndedLog(setup, moves);
    EndPublishesResponse(setup, moves);
    EndStatusOf(setup, moves);
    var log, s := Published(setup, moves), Reach(setup, moves).state;
    LastApplies(log, setup.runId);
    ResponseShown(Client.ReplicaOf(log[..|log| - 1]).value, log[|log| - 1]);
    if s.plan.None? {
      ReplicaHas(log, setup.runId, "");
      EventsBring(setup, moves, "");
    }
    hide BringsArtifact, BringsEvidence, BringsPlan, HasKey, UniqueIds;
  }

  lemma EndedIdsShown(setup: Setup, moves: seq<Move>, id: string)
    requires Proper(setup, moves) && setup.runId != "" && Reach(setup, moves).Ended?
    ensures Client.AllValid(Published(setup, moves)) && Client.ReplicaOf(Published(setup, moves)).Returned?
    ensures var r, s := Client.ReplicaOf(Published(setup, moves)).value, Reach(setup, moves).state;
            && (id in ArtifactIdSet(r.artifacts) <==>
                  id in ArtifactIdSet(s.artifacts) || id in ArtifactIdSet(Unobserved(s).0))
            && (id in EvidenceIdSet(r.evidence) <==>
                  id in EvidenceIdSet(s.evidence) || id in EvidenceIdSet(Unobserved(s).1))
  {
    hide Published, Reach, Proper, Said, Client.ReplicaOf, ArtifactsBrought, EvidenceBrought, ArtifactIdSet,
         EvidenceIdSet, Unobserved;
    hide BringsArtifact, BringsEvidence, BringsPlan, HasKey, UniqueIds;
    EndedLog(setup, moves);
    ReplicaHas(Published(setup, moves), setup.runId, id);
    EventsBring(setup, moves, id);
    var r := Client.ReplicaOf(Published(setup, moves)).value;
    HasIds(r.artifacts, r.evidence, id);
  }

  lemma ProperIsValid(setup: Setup, moves: seq<Move>)
    requires Proper(setup, moves)
    ensures MovesValid(moves)
  {
  }

  // A run that says it failed has an error.
  lemma EndStatusOf(setup: Setup, moves: seq<Move>)
    requires Proper(setup, moves) && Reach(setup, moves).Ended?
    ensures var events := Published(setup, moves);
            events != [] && (LastOf(events).data.RunFailed? ==> Reach(setup, moves).state.error.Some?)
  {
    hide Published, Reach, Proper;
    StreamIsAccepted(setup, moves);
    ProperFits(setup, moves);
    OneTerminalEvent(setup, moves, |Published(setup, moves)| - 1);
  }

  /**
   * The screen shows exactly the recorded artifacts and evidence if and only if all that a tool brought
   * before the run was stopped, and no node observed, was recorded before.
   */
  lemma ScreenIsRecordIff(setup: Setup, moves: seq<Move>, received: seq<AgentEvent>)
    requires Proper(setup, moves) && setup.runId != "" && Reach(setup, moves).Ended?
    requires forall e :: e in received <==> e in Published(setup, moves)
    ensures Client.AllValid(received) && Client.HydrateRun(received).Returned?
    ensures var r, s := Client.HydrateRun(received).value, Reach(setup, moves).state;
            ArtifactIdSet(r.artifacts) == ArtifactIdSet(s.artifacts)
                && EvidenceIdSet(r.evidence) == EvidenceIdSet(s.evidence) <==>
            ArtifactIdSet(Unobserved(s).0) <= ArtifactIdSet(s.artifacts)
                && EvidenceIdSet(Unobserved(s).1) <= EvidenceIdSet(s.evidence)
  {
    hide Published, Reach, Proper, ArtifactIdSet, EvidenceIdSet, Unobserved;
    EndedScreenShowsRecord(setup, moves, received);
  }
}
