/**
 * The browser's copy of a run: a reducer over the events it receives. It is proved to be a
 * function of the server's log, whatever the order and the repetitions in which events arrive.
 */
module RunReplica {
  import opened AgentModels
  import opened Outcomes
  import Log = RunEventStore

  datatype ReplicaStatus = Idle | Running | Waiting | Resuming | Completed | Failed | Cancelled

  datatype CallStatus = CallRunning | CallSucceeded | CallFailed

  datatype ToolCallView = ToolCallView(callId: string, actionId: string, toolName: string, status: CallStatus)

  datatype ObservationView = ObservationView(observationId: string, actionId: string, summary: string,
      artifactIds: seq<string>, evidenceIds: seq<string>)

  datatype Replica = Replica(
    runId: string,
    status: ReplicaStatus,
    lastSequence: int,
    events: seq<AgentEvent>,
    digests: map<nat, AgentEvent>,
    plan: Option<AnalysisPlan>,
    stepSummaries: seq<(string, StepStatus)>,
    toolCalls: seq<ToolCallView>,
    observations: seq<ObservationView>,
    artifacts: seq<ArtifactRef>,
    evidence: seq<EvidenceRef>,
    inputRequest: Option<InputRequest>,
    response: Option<AgentResponse>)

  const EMPTY: Replica := Replica("", Idle, -1, [], map[], None, [], [], [], [], [], None, None)

  datatype ReplicaError = ConflictingReplay | OtherRun | NotContiguous

  datatype Action = Reset | Hydrate(events: seq<AgentEvent>) | Event(event: AgentEvent) | ResumeRequested | StreamFailed
      | CancelledHere

  // ---- helpers of the reducer ----

  /** Setting a map entry: a known key keeps its place and takes the new value, a new key goes last. */
  function Put<T>(items: seq<T>, item: T, key: T -> string): seq<T> {
    if items == [] then [item]
    else if key(items[0]) == key(item) then [item] + items[1..]
    else [items[0]] + Put(items[1..], item, key)
  }

  function PutAll<T>(items: seq<T>, additions: seq<T>, key: T -> string): seq<T>
    decreases |additions|
  {
    if additions == [] then items else PutAll(Put(items, additions[0], key), additions[1..], key)
  }

  function MergeBy<T>(current: seq<T>, additions: seq<T>, key: T -> string): seq<T> {
    PutAll(PutAll([], current, key), additions, key)
  }

  function MarkSteps(plan: Option<AnalysisPlan>, change: AnalysisStep -> AnalysisStep): Option<AnalysisPlan> {
    if plan.None? then None
    else Some(plan.value.(steps := seq(|plan.value.steps|,
        i requires 0 <= i < |plan.value.steps| => change(plan.value.steps[i]))))
  }

  function Blocked(s: AnalysisStep): AnalysisStep {
    if s.status.StepRunning? then s.(status := StepBlocked) else s
  }

  function TerminateActiveWork(r: Replica): Replica {
    r.(plan := MarkSteps(r.plan, Blocked),
       toolCalls := seq(|r.toolCalls|, i requires 0 <= i < |r.toolCalls| =>
         if r.toolCalls[i].status.CallRunning? then r.toolCalls[i].(status := CallFailed) else r.toolCalls[i]))
  }

  function ArtifactKey(a: ArtifactRef): string { a.artifactId }
  function EvidenceKey(e: EvidenceRef): string { e.evidenceId }

  function ApplyResponse(r: Replica, response: AgentResponse): Replica {
    r.(response := Some(response),
       plan := if response.analysisPlan.Some? then response.analysisPlan else r.plan,
       stepSummaries := response.stepSummaries,
       artifacts := MergeBy(r.artifacts, response.artifacts, ArtifactKey),
       evidence := MergeBy(r.evidence, response.evidence, EvidenceKey))
  }

  /** The switch over the event type, on a copy that already carries the event. */
  function Apply(next: Replica, e: AgentEvent): Replica
    requires ValidEvent(e)
  {
    match e.data
    case PlanUpdated(plan) => next.(plan := Some(plan), status := Running)
    case StepStarted(id, _) =>
      next.(plan := MarkSteps(next.plan, (s: AnalysisStep) => if s.stepId == id then s.(status := StepRunning) else s))
    case ToolStarted(callId, actionId, name) =>
      next.(toolCalls := next.toolCalls + [ToolCallView(callId, actionId, name, CallRunning)])
    case ToolCompleted(callId, _, ok, artifacts, evidence) =>
      next.(toolCalls := seq(|next.toolCalls|, i requires 0 <= i < |next.toolCalls| =>
              if next.toolCalls[i].callId == callId
              then next.toolCalls[i].(status := if ok then CallSucceeded else CallFailed) else next.toolCalls[i]),
            artifacts := MergeBy(next.artifacts, artifacts, ArtifactKey),
            evidence := MergeBy(next.evidence, evidence, EvidenceKey))
    case ObservationRecorded(id, actionId, summary, artifactIds, evidenceIds) =>
      next.(observations := next.observations + [ObservationView(id, actionId, summary, artifactIds, evidenceIds)])
    case RunWaiting(request) => next.(status := Waiting, inputRequest := Some(request))
    case RunResumed(_) => next.(status := Running, inputRequest := None)
    case RunCompleted => ApplyResponse(next, e.response.value).(status := Completed, inputRequest := None)
    case RunFailed(code) =>
      TerminateActiveWork(ApplyResponse(next, e.response.value)
        .(status := if code.CANCELLED? then Cancelled else Failed, inputRequest := None))
    case _ => next.(status := Running)
  }

  /** Source: `applyEvent`. The event stands for its own JSON text in `digests`. */
  function ApplyEvent(r: Replica, e: AgentEvent): Outcome<Replica, ReplicaError>
    requires ValidEvent(e)
  {
    if e.sequence in r.digests then
      if r.digests[e.sequence] == e then Returned(r) else Raised(ConflictingReplay)
    else if r.runId != "" && e.runId != r.runId then Raised(OtherRun)
    else if e.sequence != r.lastSequence + 1 then Raised(NotContiguous)
    else
      Returned(Apply(Received(r, e), e))
  }

  /** The copy that carries the event, before its effect. */
  function Received(r: Replica, e: AgentEvent): Replica {
    r.(runId := e.runId,
       status := if r.status.Idle? then Running else r.status,
       lastSequence := e.sequence,
       events := r.events + [e],
       digests := r.digests[e.sequence := e])
  }

  ghost predicate AllValid(events: seq<AgentEvent>) {
    forall e | e in events :: ValidEvent(e)
  }

  function ApplyAll(r: Replica, events: seq<AgentEvent>): Outcome<Replica, ReplicaError>
    requires AllValid(events)
    decreases |events|
  {
    if events == [] then Returned(r)
    else
      var next := ApplyEvent(r, events[0]);
      if next.Raised? then next else ApplyAll(next.value, events[1..])
  }

  function Insert(sorted: seq<AgentEvent>, e: AgentEvent): seq<AgentEvent> {
    if sorted == [] || e.sequence < sorted[0].sequence then [e] + sorted
    else [sorted[0]] + Insert(sorted[1..], e)
  }

  function SortBySequence(events: seq<AgentEvent>): seq<AgentEvent> {
    if events == [] then [] else Insert(SortBySequence(events[..|events| - 1]), events[|events| - 1])
  }

  ghost predicate Sorted(events: seq<AgentEvent>) {
    forall i, j | 0 <= i < j < |events| :: events[i].sequence <= events[j].sequence
  }

  lemma {:induction false} InsertKeeps(sorted: seq<AgentEvent>, e: AgentEvent)
    ensures multiset(Insert(sorted, e)) == multiset(sorted) + multiset{e}
  {
    if sorted != [] && e.sequence >= sorted[0].sequence {
      InsertKeeps(sorted[1..], e);
      assert sorted == [sorted[0]] + sorted[1..];
    }
  }

  lemma SortedCons(head: AgentEvent, rest: seq<AgentEvent>)
    requires Sorted(rest) && forall x | x in rest :: head.sequence <= x.sequence
    ensures Sorted([head] + rest)
  {
  }

  lemma {:induction false} InsertSorts(sorted: seq<AgentEvent>, e: AgentEvent)
    requires Sorted(sorted)
    ensures Sorted(Insert(sorted, e))
  {
    if sorted == [] || e.sequence < sorted[0].sequence {
      SortedCons(e, sorted);
    } else {
      InsertSorts(sorted[1..], e);
      InsertKeeps(sorted[1..], e);
      forall x | x in Insert(sorted[1..], e) ensures sorted[0].sequence <= x.sequence {
        assert x in multiset(Insert(sorted[1..], e));
      }
      SortedCons(sorted[0], Insert(sorted[1..], e));
    }
  }

  lemma NothingIsSorted()
    ensures Sorted([])
  {
  }

  lemma {:induction false} SortSorts(events: seq<AgentEvent>)
    ensures Sorted(SortBySequence(events)) && multiset(SortBySequence(events)) == multiset(events)
  {
    if events == [] {
      NothingIsSorted();
    } else {
      hide Sorted, Insert;
      SortSorts(events[..|events| - 1]);
      InsertSorts(SortBySequence(events[..|events| - 1]), events[|events| - 1]);
      InsertKeeps(SortBySequence(events[..|events| - 1]), events[|events| - 1]);
      assert events == events[..|events| - 1] + [events[|events| - 1]];
    }
  }

  lemma SameElements(events: seq<AgentEvent>)
    ensures Sorted(SortBySequence(events))
    ensures forall e :: e in events <==> e in SortBySequence(events)
  {
    SortSorts(events);
    forall e ensures e in events <==> e in SortBySequence(events) {
      assert e in multiset(events) <==> e in multiset(SortBySequence(events));
    }
  }

  /** Source: `hydrateAgentRun`. */
  function HydrateRun(events: seq<AgentEvent>): Outcome<Replica, ReplicaError>
    requires AllValid(events)
  {
    SameElements(events);
    ApplyAll(EMPTY, SortBySequence(events))
  }

  /** Source: `agentRunReducer`. */
  function Reduce(r: Replica, a: Action): Outcome<Replica, ReplicaError>
    requires a.Event? ==> ValidEvent(a.event)
    requires a.Hydrate? ==> AllValid(a.events)
  {
    match a
    case Reset => Returned(EMPTY)
    case Hydrate(events) => HydrateRun(events)
    case ResumeRequested => Returned(if r.status.Waiting? then r.(status := Resuming) else r)
    case CancelledHere => Returned(TerminateActiveWork(r.(status := Cancelled, inputRequest := None)))
    case StreamFailed => Returned(TerminateActiveWork(r.(status := Failed, inputRequest := None)))
    case Event(e) => ApplyEvent(r, e)
  }

  // ---- the replica of a log ----

  function StatusView(s: Log.RunStatus): ReplicaStatus {
    match s
    case Running => Running
    case Waiting => Waiting
    case Completed => Completed
    case Failed => Failed
    case Cancelled => Cancelled
  }

  /** A stored log of one named run. */
  ghost predicate RunLog(events: seq<AgentEvent>, runId: string) {
    && Log.Accepted(events) && AllValid(events) && runId != ""
    && forall e | e in events :: e.runId == runId
  }

  /** What the replica shows after receiving exactly `log`, in order. */
  ghost predicate Shows(r: Replica, log: seq<AgentEvent>) {
    && r.events == log && r.lastSequence == |log| - 1
    && (forall i: nat :: i in r.digests <==> i < |log|)
    && (forall i: nat | i < |log| :: r.digests[i] == log[i])
    && (if log == [] then r == EMPTY
        else
          && r.runId == log[0].runId
          && r.status == StatusView(Log.StatusOf(log))
          && r.inputRequest == if log[|log| - 1].data.RunWaiting? then Some(log[|log| - 1].data.inputRequest) else None)
  }

  ghost function ReplicaOf(log: seq<AgentEvent>): Outcome<Replica, ReplicaError>
    requires AllValid(log)
  {
    if log == [] then Returned(EMPTY)
    else
      var before := ReplicaOf(log[..|log| - 1]);
      if before.Raised? then before else ApplyEvent(before.value, log[|log| - 1])
  }

  lemma RunLogPrefix(log: seq<AgentEvent>, runId: string, n: nat)
    requires RunLog(log, runId) && n <= |log|
    ensures RunLog(log[..n], runId)
  {
    Log.AcceptedPrefix(log, n);
  }

  function StatusAfter(current: ReplicaStatus, d: EventData): ReplicaStatus {
    match d
    case RunWaiting(_) => Waiting
    case RunCompleted => Completed
    case RunFailed(code) => if code.CANCELLED? then Cancelled else Failed
    case StepStarted(_, _) => current
    case ToolStarted(_, _, _) => current
    case ToolCompleted(_, _, _, _, _) => current
    case ObservationRecorded(_, _, _, _, _) => current
    case _ => Running
  }

  function QuestionAfter(current: Option<InputRequest>, d: EventData): Option<InputRequest> {
    if d.RunWaiting? then Some(d.inputRequest)
    else if d.RunResumed? || IsTerminal(d) then None
    else current
  }

  lemma ApplyFrame(next: Replica, e: AgentEvent)
    requires ValidEvent(e)
    ensures var r := Apply(next, e);
            && r.runId == next.runId && r.lastSequence == next.lastSequence
            && r.events == next.events && r.digests == next.digests
            && r.status == StatusAfter(next.status, e.data)
            && r.inputRequest == QuestionAfter(next.inputRequest, e.data)
  {
  }

  /** The next event of a stored log, in terms of the log's last event only. */
  ghost predicate IsNext(log: seq<AgentEvent>, e: AgentEvent) {
    && ValidEvent(e) && e.sequence == |log|
    && if log == [] then e.data.RunStarted?
       else e.runId == log[0].runId && log[0].runId != "" && Log.MayFollow(log[|log| - 1].data, e.data)
  }

  lemma StoredIsNext(log: seq<AgentEvent>, e: AgentEvent, runId: string)
    requires RunLog(log + [e], runId) && RunLog(log, runId)
    ensures IsNext(log, e) && Log.StatusOf(log + [e]) == Log.StatusOfLast(e.data)
    ensures log != [] ==> Log.StatusOf(log) == Log.StatusOfLast(log[|log| - 1].data)
  {
    Log.AcceptedIffShape(log + [e]);
    Log.ShapeSnoc(log, e);
    Log.StatusIsLast(log + [e]);
    assert e in log + [e];
    if log != [] {
      Log.StatusIsLast(log);
      assert log[0] in log;
    }
  }

  /** `Shows`, with the status read off the last event. */
  ghost predicate Mirrors(r: Replica, log: seq<AgentEvent>) {
    && r.events == log && r.lastSequence == |log| - 1
    && (forall i: nat :: i in r.digests <==> i < |log|)
    && (forall i: nat | i < |log| :: r.digests[i] == log[i])
    && (if log == [] then r == EMPTY
        else
          && r.runId == log[0].runId
          && r.status == StatusView(Log.StatusOfLast(log[|log| - 1].data))
          && r.inputRequest == if log[|log| - 1].data.RunWaiting? then Some(log[|log| - 1].data.inputRequest) else None)
  }

  lemma NextApplies(r: Replica, log: seq<AgentEvent>, e: AgentEvent)
    requires Mirrors(r, log) && IsNext(log, e)
    ensures ApplyEvent(r, e) == Returned(Apply(Received(r, e), e))
    ensures ApplyEvent(Reduce(r, ResumeRequested).value, e) == ApplyEvent(r, e)
  {
    assert e.sequence !in r.digests;
  }

  /**
   * What the copy of a log rejects: another event under a number it has, an event of another run, and a
   * number that is not the next one. A repeat changes nothing.
   */
  lemma RejectsIff(log: seq<AgentEvent>, runId: string, e: AgentEvent)
    requires RunLog(log, runId) && log != [] && ValidEvent(e)
    ensures ReplicaOf(log).Returned?
    ensures var r := ReplicaOf(log).value;
            var answer := ApplyEvent(r, e);
            var known := exists x | x in log :: x.sequence == e.sequence;
            && (e in log ==> answer == Returned(r))
            && (answer == Raised(ConflictingReplay) <==> known && e !in log)
            && (answer == Raised(OtherRun) <==> !known && e.runId != runId)
            && (answer == Raised(NotContiguous) <==> !known && e.runId == runId && e.sequence != |log|)
  {
    ReplicaShowsLog(log, runId);
    Log.TakenIff(log, e);
    assert log[0] in log;
  }

  lemma NextMirrors(r: Replica, log: seq<AgentEvent>, e: AgentEvent)
    requires Mirrors(r, log) && IsNext(log, e)
    ensures Mirrors(Apply(Received(r, e), e), log + [e])
  {
    var before, longer := Received(r, e), log + [e];
    ApplyFrame(before, e);
    assert longer[|log|] == e;
    assert forall i: nat | i < |log| :: longer[i] == log[i];
    if log != [] {
      assert r.status == StatusView(Log.StatusOfLast(log[|log| - 1].data)) && longer[0] == log[0];
    }
    assert StatusAfter(before.status, e.data) == StatusView(Log.StatusOfLast(e.data));
  }

  lemma NextShows(r: Replica, log: seq<AgentEvent>, e: AgentEvent, runId: string)
    requires RunLog(log + [e], runId) && RunLog(log, runId) && Shows(r, log)
    ensures IsNext(log, e)
    ensures ApplyEvent(r, e) == Returned(Apply(Received(r, e), e)) && Shows(Apply(Received(r, e), e), log + [e])
    ensures ApplyEvent(Reduce(r, ResumeRequested).value, e) == ApplyEvent(r, e)
  {
    StoredIsNext(log, e, runId);
    NextApplies(r, log, e);
    NextMirrors(r, log, e);
  }

  /** Receiving a stored log in order never fails, and shows the stored status and the open question. */
  lemma {:induction false} ReplicaShowsLog(log: seq<AgentEvent>, runId: string)
    requires RunLog(log, runId)
    ensures ReplicaOf(log).Returned? && Shows(ReplicaOf(log).value, log)
  {
    if log != [] {
      var init, e := log[..|log| - 1], log[|log| - 1];
      assert log == init + [e];
      RunLogPrefix(log, runId, |init|);
      ReplicaShowsLog(init, runId);
      NextShows(ReplicaOf(init).value, init, e, runId);
    }
  }

  /** One arriving event: a repeat is skipped, the next one is applied. */
  lemma Arrives(log: seq<AgentEvent>, runId: string, n: nat, e: AgentEvent)
    requires RunLog(log, runId) && n <= |log| && e in log && e.sequence <= n
    ensures AllValid(log[..n]) && ReplicaOf(log[..n]).Returned? && Shows(ReplicaOf(log[..n]).value, log[..n])
    ensures e.sequence < n ==> ApplyEvent(ReplicaOf(log[..n]).value, e) == ReplicaOf(log[..n])
    ensures e.sequence == n ==> n < |log| && log[n] == e && AllValid(log[..n + 1])
    ensures e.sequence == n ==> ApplyEvent(ReplicaOf(log[..n]).value, e) == ReplicaOf(log[..n + 1])
  {
    RunLogPrefix(log, runId, n);
    ReplicaShowsLog(log[..n], runId);
    var at: nat :| at < |log| && log[at] == e;
    Log.SequenceAt(log, at);
    if at == n {
      assert log[..n + 1] == log[..n] + [e] && log[..n + 1][..n] == log[..n];
      RunLogPrefix(log, runId, n + 1);
    } else {
      assert log[..n][at] == e;
    }
  }

  ghost predicate StillToCome(log: seq<AgentEvent>, n: nat, arriving: seq<AgentEvent>) {
    && Sorted(arriving) && (forall e | e in arriving :: e in log)
    && (forall m | n <= m < |log| :: log[m] in arriving)
  }

  lemma HeadArrives(log: seq<AgentEvent>, n: nat, arriving: seq<AgentEvent>)
    requires Log.Accepted(log) && n <= |log| && arriving != [] && StillToCome(log, n, arriving)
    ensures arriving[0] in log && arriving[0].sequence <= n
    ensures StillToCome(log, if arriving[0].sequence < n then n else n + 1, arriving[1..])
  {
    var e, rest := arriving[0], arriving[1..];
    assert arriving == [e] + rest;
    assert e in arriving;
    var at: nat :| at < |log| && log[at] == e;
    Log.SequenceAt(log, at);
    if n < |log| {
      Log.SequenceAt(log, n);
      var k :| 0 <= k < |arriving| && arriving[k] == log[n];
      assert e.sequence <= n;
    }
    forall m | (if e.sequence < n then n else n + 1) <= m < |log| ensures log[m] in rest {
      Log.SequenceAt(log, m);
      assert log[m] in arriving && log[m] != e;
    }
  }

  lemma {:induction false} CatchUp(log: seq<AgentEvent>, runId: string, n: nat, arriving: seq<AgentEvent>)
    requires RunLog(log, runId) && n <= |log| && StillToCome(log, n, arriving)
    ensures AllValid(arriving) && AllValid(log[..n])
    ensures ReplicaOf(log[..n]).Returned? && ApplyAll(ReplicaOf(log[..n]).value, arriving) == ReplicaOf(log)
    decreases |arriving|
  {
    if arriving == [] {
      RunLogPrefix(log, runId, n);
      ReplicaShowsLog(log[..n], runId);
      assert n == |log| && log[..n] == log;
    } else {
      HeadArrives(log, n, arriving);
      Arrives(log, runId, n, arriving[0]);
      CatchUp(log, runId, if arriving[0].sequence < n then n else n + 1, arriving[1..]);
    }
  }

  /**
   * The replica refines the log: the stored events in any order, with any repetitions, hydrate to
   * the state that receiving them one by one in order gives. It never fails, its status is the
   * stored status, and it asks for input exactly when the stored run waits.
   */
  lemma HydrateIsReplica(log: seq<AgentEvent>, runId: string, received: seq<AgentEvent>)
    requires RunLog(log, runId)
    requires forall e :: e in received <==> e in log
    ensures AllValid(received)
    ensures HydrateRun(received) == ReplicaOf(log)
    ensures ReplicaOf(log).Returned? && Shows(ReplicaOf(log).value, log)
    ensures ReplicaOf(log).value.inputRequest.Some? <==> log != [] && Log.StatusOf(log).Waiting?
  {
    HydrateFollows(log, runId, received);
    ReplicaShowsLog(log, runId);
    if log != [] {
      Log.StatusIsLast(log);
    }
  }

  lemma HydrateFollows(log: seq<AgentEvent>, runId: string, received: seq<AgentEvent>)
    requires RunLog(log, runId) && AllValid(received) && forall e :: e in received <==> e in log
    ensures HydrateRun(received) == ReplicaOf(log)
  {
    SortedStillToCome(log, received);
    CatchUp(log, runId, 0, SortBySequence(received));
    assert ReplicaOf(log[..0]).value == EMPTY;
  }

  lemma SortedStillToCome(log: seq<AgentEvent>, received: seq<AgentEvent>)
    requires forall e :: e in received <==> e in log
    ensures StillToCome(log, 0, SortBySequence(received))
  {
    SameElements(received);
    forall m | 0 <= m < |log| ensures log[m] in SortBySequence(received) {
      assert log[m] in log;
    }
  }

  // ---- local actions between events ----

  datatype Arrival = Arrive(event: AgentEvent) | AskToResume

  function ActionOf(a: Arrival): Action {
    match a
    case Arrive(e) => Event(e)
    case AskToResume => ResumeRequested
  }

  /** Each arrival repeats an event already received, or is the next one; `n` are received at the end. */
  ghost predicate Follows(log: seq<AgentEvent>, arrivals: seq<Arrival>, n: nat)
    decreases |arrivals|
  {
    n <= |log| &&
    if arrivals == [] then n == 0
    else
      var init, last := arrivals[..|arrivals| - 1], arrivals[|arrivals| - 1];
      || (Follows(log, init, n) && (last.Arrive? ==> last.event in log[..n]))
      || (n > 0 && Follows(log, init, n - 1) && last == Arrive(log[n - 1]))
  }

  ghost function React(arrivals: seq<Arrival>): Outcome<Replica, ReplicaError>
    requires forall a | a in arrivals && a.Arrive? :: ValidEvent(a.event)
    decreases |arrivals|
  {
    if arrivals == [] then Returned(EMPTY)
    else
      var before := React(arrivals[..|arrivals| - 1]);
      if before.Raised? then before else Reduce(before.value, ActionOf(arrivals[|arrivals| - 1]))
  }

  /** A request to resume is only a mark on a waiting replica, and the next fresh event erases it. */
  lemma ResumeIsForgotten(log: seq<AgentEvent>, e: AgentEvent, runId: string)
    requires RunLog(log + [e], runId) && RunLog(log, runId)
    ensures ReplicaOf(log).Returned?
    ensures var r := ReplicaOf(log).value;
            ApplyEvent(Reduce(r, ResumeRequested).value, e) == ApplyEvent(r, e)
  {
    ReplicaShowsLog(log, runId);
    NextShows(ReplicaOf(log).value, log, e, runId);
  }

  lemma FollowsValid(log: seq<AgentEvent>, runId: string, arrivals: seq<Arrival>, n: nat)
    requires RunLog(log, runId) && Follows(log, arrivals, n)
    ensures forall a | a in arrivals && a.Arrive? :: a.event in log && ValidEvent(a.event)
    decreases |arrivals|
  {
    if arrivals != [] {
      var init, last := arrivals[..|arrivals| - 1], arrivals[|arrivals| - 1];
      if Follows(log, init, n) && (last.Arrive? ==> last.event in log[..n]) {
        FollowsValid(log, runId, init, n);
      } else {
        FollowsValid(log, runId, init, n - 1);
      }
      assert arrivals == init + [last];
    }
  }

  /**
   * Any interleaving of fresh events, repeats and resume requests leaves the replica of what has
   * arrived, up to that mark.
   */
  lemma {:induction false} InterleavedResumes(log: seq<AgentEvent>, runId: string, arrivals: seq<Arrival>, n: nat)
    requires RunLog(log, runId) && Follows(log, arrivals, n)
    ensures forall a | a in arrivals && a.Arrive? :: ValidEvent(a.event)
    ensures AllValid(log[..n]) && ReplicaOf(log[..n]).Returned? && React(arrivals).Returned?
    ensures var r := ReplicaOf(log[..n]).value;
            React(arrivals).value == r || (r.status.Waiting? && React(arrivals).value == r.(status := Resuming))
    decreases |arrivals|
  {
    hide Shows;
    RunLogPrefix(log, runId, n);
    ReplicaShowsLog(log[..n], runId);
    FollowsValid(log, runId, arrivals, n);
    if arrivals != [] {
      var init, last := arrivals[..|arrivals| - 1], arrivals[|arrivals| - 1];
      assert forall a | a in init :: a in arrivals;
      assert last in arrivals;
      if Follows(log, init, n) && (last.Arrive? ==> last.event in log[..n]) {
        InterleavedResumes(log, runId, init, n);
        if last.Arrive? {
          RepeatIsIgnored(log, runId, n, last.event);
        }
      } else {
        InterleavedResumes(log, runId, init, n - 1);
        FreshArrives(log, runId, n);
      }
    }
  }

  lemma RepeatIsIgnored(log: seq<AgentEvent>, runId: string, n: nat, e: AgentEvent)
    requires RunLog(log, runId) && n <= |log| && e in log[..n]
    ensures AllValid(log[..n]) && ReplicaOf(log[..n]).Returned? && ValidEvent(e)
    ensures var r := ReplicaOf(log[..n]).value;
            ApplyEvent(r, e) == Returned(r) && ApplyEvent(r.(status := Resuming), e) == Returned(r.(status := Resuming))
  {
    RunLogPrefix(log, runId, n);
    ReplicaShowsLog(log[..n], runId);
    var i: nat :| i < n && log[..n][i] == e;
    Log.SequenceAt(log, i);
  }

  lemma FreshArrives(log: seq<AgentEvent>, runId: string, n: nat)
    requires RunLog(log, runId) && 0 < n <= |log|
    ensures AllValid(log[..n - 1]) && AllValid(log[..n]) && ReplicaOf(log[..n - 1]).Returned?
    ensures var r := ReplicaOf(log[..n - 1]).value;
            && ApplyEvent(r, log[n - 1]) == ReplicaOf(log[..n])
            && (r.status.Waiting? ==> ApplyEvent(r.(status := Resuming), log[n - 1]) == ReplicaOf(log[..n]))
  {
    RunLogPrefix(log, runId, n - 1);
    RunLogPrefix(log, runId, n);
    assert log[..n] == log[..n - 1] + [log[n - 1]] && log[..n][..n - 1] == log[..n - 1];
    ResumeIsForgotten(log[..n - 1], log[n - 1], runId);
  }

  /** A run that failed or was cancelled, on the server or here, shows no running step and no running call. */
  predicate NoActiveWork(r: Replica) {
    && (r.plan.Some? ==> forall s | s in r.plan.value.steps :: !s.status.StepRunning?)
    && (forall c | c in r.toolCalls :: !c.status.CallRunning?)
  }

  lemma TerminatedWork(r: Replica)
    ensures NoActiveWork(TerminateActiveWork(r))
    ensures NoActiveWork(r) ==> TerminateActiveWork(r) == r
  {
    var t := TerminateActiveWork(r);
    if r.plan.Some? {
      var before, after := r.plan.value.steps, t.plan.value.steps;
      assert |after| == |before| && forall i | 0 <= i < |before| :: after[i] == Blocked(before[i]);
      forall s | s in after ensures !s.status.StepRunning? {
        var i :| 0 <= i < |after| && after[i] == s;
      }
      if NoActiveWork(r) {
        forall i | 0 <= i < |before| ensures after[i] == before[i] {
          assert before[i] in before;
        }
        assert after == before;
      }
    }
    if NoActiveWork(r) {
      forall i | 0 <= i < |r.toolCalls| ensures t.toolCalls[i] == r.toolCalls[i] {
        assert r.toolCalls[i] in r.toolCalls;
      }
      assert t.toolCalls == r.toolCalls;
    }
  }

  lemma FailedRunShowsNoWork(log: seq<AgentEvent>, runId: string)
    requires RunLog(log, runId) && log != []
    requires Log.StatusOf(log).Failed? || Log.StatusOf(log).Cancelled?
    ensures ReplicaOf(log).Returned? && NoActiveWork(ReplicaOf(log).value)
    ensures ReplicaOf(log).value.response == log[|log| - 1].response
  {
    Log.StatusIsLast(log);
    var init, e := log[..|log| - 1], log[|log| - 1];
    assert log == init + [e];
    RunLogPrefix(log, runId, |init|);
    ReplicaShowsLog(init, runId);
    var r := ReplicaOf(init).value;
    NextShows(r, init, e, runId);
    assert log[..|log| - 1] == init;
    assert ReplicaOf(log) == Returned(Apply(Received(r, e), e));
    TerminatedWork(ApplyResponse(Received(r, e), e.response.value)
        .(status := if e.data.errorCode.CANCELLED? then Cancelled else Failed, inputRequest := None));
  }

  // ---- merged artifacts and evidence ----

  ghost predicate DistinctKeys<T(!new)>(items: seq<T>, key: T -> string) {
    forall i, j | 0 <= i < j < |items| :: key(items[i]) != key(items[j])
  }

  function LastWith<T>(items: seq<T>, k: string, key: T -> string): Option<T> {
    if items == [] then None
    else if key(items[|items| - 1]) == k then Some(items[|items| - 1])
    else LastWith(items[..|items| - 1], k, key)
  }

  lemma PutMeans<T(!new)>(items: seq<T>, item: T, key: T -> string, k: string)
    requires DistinctKeys(items, key)
    ensures DistinctKeys(Put(items, item, key), key)
    ensures forall x :: x in Put(items, item, key) <==> x == item || (x in items && key(x) != key(item))
  {
    if items != [] && key(items[0]) != key(item) {
      PutMeans(items[1..], item, key, k);
      assert items == [items[0]] + items[1..];
    } else if items != [] {
      assert items == [items[0]] + items[1..];
    }
  }

  lemma {:induction false} PutAllMeans<T(!new)>(items: seq<T>, additions: seq<T>, key: T -> string, x: T)
    requires DistinctKeys(items, key)
    ensures DistinctKeys(PutAll(items, additions, key), key)
    ensures x in PutAll(items, additions, key) <==>
              LastWith(additions, key(x), key) == Some(x) || (LastWith(additions, key(x), key) == None && x in items)
    decreases |additions|
  {
    if additions != [] {
      var first, rest := additions[0], additions[1..];
      PutMeans(items, first, key, key(x));
      PutAllMeans(Put(items, first, key), rest, key, x);
      LastOfCons(first, rest, key(x), key);
      assert additions == [first] + rest;
    }
  }

  lemma LastOfCons<T>(first: T, rest: seq<T>, k: string, key: T -> string)
    ensures LastWith([first] + rest, k, key) ==
            if LastWith(rest, k, key).Some? then LastWith(rest, k, key)
            else if key(first) == k then Some(first) else None
  {
    if rest != [] {
      assert ([first] + rest)[..|rest|] == [first] + rest[..|rest| - 1];
    } else {
      assert [first] + rest == [first];
    }
  }

  /** Merging keeps one item per id: the one seen last, in what was there or in what came. */
  lemma MergeKeepsLast<T(!new)>(current: seq<T>, additions: seq<T>, key: T -> string, x: T)
    ensures DistinctKeys(MergeBy(current, additions, key), key)
    ensures x in MergeBy(current, additions, key) <==> LastWith(current + additions, key(x), key) == Some(x)
  {
    PutAllMeans([], current, key, x);
    PutAllMeans(PutAll([], current, key), additions, key, x);
    LastOfConcat(current, additions, key(x), key);
  }

  lemma {:induction false} LastOfConcat<T>(a: seq<T>, b: seq<T>, k: string, key: T -> string)
    ensures LastWith(a + b, k, key) == if LastWith(b, k, key).Some? then LastWith(b, k, key) else LastWith(a, k, key)
    decreases |b|
  {
    if b == [] {
      assert a + b == a;
    } else {
      assert (a + b)[..|a + b| - 1] == a + b[..|b| - 1];
      LastOfConcat(a, b[..|b| - 1], k, key);
    }
  }
}
