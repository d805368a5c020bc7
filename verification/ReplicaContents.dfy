/**
 * What the browser's copy of a run holds, in terms of the positions of the log: every tool call with
 * its outcome, every observation, the plan with the steps that were started, and what tools brought.
 */
module ReplicaContents {
  import opened AgentModels
  import opened AgentEvaluator
  import opened Outcomes
  import opened PlanGraph
  import opened RunReplica
  import Log = RunEventStore

  // ---- positions of events ----

  /** The positions of the events of a kind, in order. */
  function Positions(log: seq<AgentEvent>, kind: EventData -> bool): (r: seq<nat>)
    ensures forall k | 0 <= k < |r| :: r[k] < |log| && kind(log[r[k]].data)
    ensures forall i: nat | i < |log| && kind(log[i].data) :: i in r
    ensures forall j, k | 0 <= j < k < |r| :: r[j] < r[k]
  {
    if log == [] then []
    else
      var n := |log| - 1;
      Positions(log[..n], kind) + if kind(log[n].data) then [n] else []
  }

  lemma PositionsSnoc(log: seq<AgentEvent>, e: AgentEvent, kind: EventData -> bool)
    ensures Positions(log + [e], kind) == Positions(log, kind) + if kind(e.data) then [|log|] else []
  {
    assert (log + [e])[..|log|] == log;
  }

  predicate FailedAtEnd(log: seq<AgentEvent>) {
    log != [] && log[|log| - 1].data.RunFailed?
  }

  // ---- tool calls ----

  const ToolStart := (d: EventData) => d.ToolStarted?

  predicate Completes(e: AgentEvent, callId: string) {
    e.data.ToolCompleted? && e.data.callId == callId
  }

  /** Nothing completed the call started at `i`. */
  ghost predicate OpenCall(log: seq<AgentEvent>, i: nat, callId: string) {
    forall j | i < j < |log| :: !Completes(log[j], callId)
  }

  /** The last completion of the call started at `i` says so. */
  ghost predicate CompletedWith(log: seq<AgentEvent>, i: nat, callId: string, ok: bool) {
    exists j | i < j < |log| ::
      Completes(log[j], callId) && log[j].data.succeeded == ok && OpenCall(log, j, callId)
  }

  /**
   * A call is shown as it was started; running until it is completed, then as the completion says, and
   * failed when the run failed while it was open.
   */
  ghost predicate ShowsCall(log: seq<AgentEvent>, i: nat, c: ToolCallView)
    requires i < |log| && log[i].data.ToolStarted?
  {
    var d := log[i].data;
    && c.callId == d.callId && c.actionId == d.actionId && c.toolName == d.toolName
    && (c.status.CallRunning? <==> OpenCall(log, i, d.callId) && !FailedAtEnd(log))
    && (c.status.CallSucceeded? <==> CompletedWith(log, i, d.callId, true))
    && (c.status.CallFailed? <==>
          CompletedWith(log, i, d.callId, false) || (OpenCall(log, i, d.callId) && FailedAtEnd(log)))
  }

  ghost predicate ShowsCalls(log: seq<AgentEvent>, calls: seq<ToolCallView>) {
    var starts := Positions(log, ToolStart);
    |calls| == |starts| && forall k | 0 <= k < |starts| :: ShowsCall(log, starts[k], calls[k])
  }

  lemma CallSnoc(log: seq<AgentEvent>, e: AgentEvent, i: nat, callId: string)
    requires i < |log|
    ensures OpenCall(log + [e], i, callId) <==> OpenCall(log, i, callId) && !Completes(e, callId)
    ensures forall ok :: CompletedWith(log + [e], i, callId, ok) <==>
              if Completes(e, callId) then e.data.succeeded == ok else CompletedWith(log, i, callId, ok)
  {
    var longer, n := log + [e], |log|;
    assert longer[n] == e && forall j | 0 <= j < n :: longer[j] == log[j];
    forall j | i < j < n ensures OpenCall(longer, j, callId) <==> OpenCall(log, j, callId) && !Completes(e, callId) {
      assert longer[n] == e;
    }
    forall ok
      ensures CompletedWith(longer, i, callId, ok) <==>
              if Completes(e, callId) then e.data.succeeded == ok else CompletedWith(log, i, callId, ok)
    {
      if Completes(e, callId) {
        assert OpenCall(longer, n, callId);
        if CompletedWith(longer, i, callId, ok) {
          var j :| i < j < |longer| && Completes(longer[j], callId) && longer[j].data.succeeded == ok
                   && OpenCall(longer, j, callId);
          assert j == n;
        }
      } else {
        if CompletedWith(longer, i, callId, ok) {
          var j :| i < j < |longer| && Completes(longer[j], callId) && longer[j].data.succeeded == ok
                   && OpenCall(longer, j, callId);
          assert j < n && OpenCall(log, j, callId);
        }
        if CompletedWith(log, i, callId, ok) {
          var j :| i < j < n && Completes(log[j], callId) && log[j].data.succeeded == ok && OpenCall(log, j, callId);
          assert Completes(longer[j], callId) && OpenCall(longer, j, callId);
        }
      }
    }
  }

  lemma OneOutcome(log: seq<AgentEvent>, i: nat, callId: string)
    ensures OpenCall(log, i, callId) ==> forall ok :: !CompletedWith(log, i, callId, ok)
  {
  }

  /** What an event does to a call on the screen. */
  function CallAfter(c: ToolCallView, e: AgentEvent): ToolCallView {
    if Completes(e, c.callId) then c.(status := if e.data.succeeded then CallSucceeded else CallFailed)
    else if e.data.RunFailed? && c.status.CallRunning? then c.(status := CallFailed)
    else c
  }

  lemma CallsAfter(next: Replica, e: AgentEvent)
    requires ValidEvent(e)
    ensures var r := Apply(next, e);
            if e.data.ToolStarted?
            then r.toolCalls == next.toolCalls
                                + [ToolCallView(e.data.callId, e.data.actionId, e.data.toolName, CallRunning)]
            else |r.toolCalls| == |next.toolCalls|
                 && forall k | 0 <= k < |r.toolCalls| :: r.toolCalls[k] == CallAfter(next.toolCalls[k], e)
  {
  }

  lemma CallStays(log: seq<AgentEvent>, e: AgentEvent, i: nat, c: ToolCallView)
    requires i < |log| && log[i].data.ToolStarted? && ShowsCall(log, i, c) && !FailedAtEnd(log)
    ensures ShowsCall(log + [e], i, CallAfter(c, e))
  {
    var callId := log[i].data.callId;
    CallSnoc(log, e, i, callId);
    OneOutcome(log, i, callId);
    assert (log + [e])[i] == log[i] && (log + [e])[|log|] == e;
    hide OpenCall, CompletedWith;
  }

  lemma CallStarts(log: seq<AgentEvent>, e: AgentEvent)
    requires e.data.ToolStarted?
    ensures ShowsCall(log + [e], |log|, ToolCallView(e.data.callId, e.data.actionId, e.data.toolName, CallRunning))
  {
    assert (log + [e])[|log|] == e;
  }

  lemma NextShowsCalls(log: seq<AgentEvent>, next: Replica, e: AgentEvent)
    requires ValidEvent(e) && ShowsCalls(log, next.toolCalls) && !FailedAtEnd(log)
    ensures ShowsCalls(log + [e], Apply(next, e).toolCalls)
  {
    hide Apply, ShowsCall, CallAfter;
    PositionsSnoc(log, e, ToolStart);
    CallsAfter(next, e);
    var starts := Positions(log, ToolStart);
    forall k | 0 <= k < |starts| ensures ShowsCall(log + [e], starts[k], CallAfter(next.toolCalls[k], e)) {
      CallStays(log, e, starts[k], next.toolCalls[k]);
    }
    if e.data.ToolStarted? {
      forall k | 0 <= k < |starts| ensures CallAfter(next.toolCalls[k], e) == next.toolCalls[k] {
        StartLeavesCalls(next.toolCalls[k], e);
      }
      CallStarts(log, e);
    }
  }

  lemma StartLeavesCalls(c: ToolCallView, e: AgentEvent)
    requires e.data.ToolStarted?
    ensures CallAfter(c, e) == c
  {
  }

  // ---- observations ----

  const Recording := (d: EventData) => d.ObservationRecorded?

  ghost predicate ShowsObservations(log: seq<AgentEvent>, observations: seq<ObservationView>) {
    var at := Positions(log, Recording);
    |observations| == |at|
    && forall k | 0 <= k < |at| ::
      var o, d := observations[k], log[at[k]].data;
      && o.observationId == d.observationId && o.actionId == d.actionId && o.summary == d.summary
      && o.artifactIds == d.artifactIds && o.evidenceIds == d.evidenceIds
  }

  lemma NextShowsObservations(log: seq<AgentEvent>, next: Replica, e: AgentEvent)
    requires ValidEvent(e) && ShowsObservations(log, next.observations)
    ensures ShowsObservations(log + [e], Apply(next, e).observations)
  {
    PositionsSnoc(log, e, Recording);
    ObservationsAfter(next, e);
    hide Apply;
    assert forall i | 0 <= i < |log| :: (log + [e])[i] == log[i];
    assert (log + [e])[|log|] == e;
  }

  lemma ObservationsAfter(next: Replica, e: AgentEvent)
    requires ValidEvent(e)
    ensures Apply(next, e).observations == next.observations + if !e.data.ObservationRecorded? then [] else
              [ObservationView(e.data.observationId, e.data.actionId, e.data.summary, e.data.artifactIds,
                   e.data.evidenceIds)]
  {
  }

  // ---- the plan ----

  /** The plan announced at `p` is the last one. */
  ghost predicate LastPlan(log: seq<AgentEvent>, p: nat) {
    p < |log| && log[p].data.PlanUpdated? && forall j | p < j < |log| :: !log[j].data.PlanUpdated?
  }

  ghost predicate StartedSince(log: seq<AgentEvent>, p: nat, stepId: string) {
    exists j | p < j < |log| :: log[j].data.StepStarted? && log[j].data.stepId == stepId
  }

  /** The last announced plan, with the steps started since then running; none before the first. */
  ghost predicate ShowsPlan(log: seq<AgentEvent>, plan: Option<AnalysisPlan>) {
    && (plan.Some? <==> exists p :: LastPlan(log, p))
    && forall p | LastPlan(log, p) :: plan.Some? && IsStartedPlan(log, p, plan.value)
  }

  ghost predicate IsStartedPlan(log: seq<AgentEvent>, p: nat, plan: AnalysisPlan)
    requires LastPlan(log, p)
  {
    var announced := log[p].data.plan;
    && plan.planId == announced.planId && plan.revision == announced.revision
    && plan.completionCriteria == announced.completionCriteria && |plan.steps| == |announced.steps|
    && forall i | 0 <= i < |plan.steps| ::
      plan.steps[i] == if StartedSince(log, p, announced.steps[i].stepId)
                       then announced.steps[i].(status := StepRunning) else announced.steps[i]
  }

  lemma LastPlanSnoc(log: seq<AgentEvent>, e: AgentEvent, p: nat)
    ensures LastPlan(log + [e], p) <==> if e.data.PlanUpdated? then p == |log| else LastPlan(log, p)
  {
    var longer := log + [e];
    assert longer[|log|] == e && forall j | 0 <= j < |log| :: longer[j] == log[j];
  }

  lemma StartedSnoc(log: seq<AgentEvent>, e: AgentEvent, p: nat, stepId: string)
    requires p < |log|
    ensures StartedSince(log + [e], p, stepId) <==>
            StartedSince(log, p, stepId) || (e.data.StepStarted? && e.data.stepId == stepId)
  {
    var longer := log + [e];
    assert longer[|log|] == e && forall j | 0 <= j < |log| :: longer[j] == log[j];
    if StartedSince(log, p, stepId) {
      var j :| p < j < |log| && log[j].data.StepStarted? && log[j].data.stepId == stepId;
      assert longer[j].data.stepId == stepId;
    }
  }

  /** What an event before the end does to a step on the screen. */
  function StepAfter(s: AnalysisStep, e: AgentEvent): AnalysisStep {
    if e.data.StepStarted? && s.stepId == e.data.stepId then s.(status := StepRunning) else s
  }

  lemma PlanAfter(next: Replica, e: AgentEvent)
    requires ValidEvent(e) && !IsTerminal(e.data)
    ensures var plan := Apply(next, e).plan;
            if e.data.PlanUpdated? then plan == Some(e.data.plan)
            else if next.plan.None? then plan.None?
            else
              && plan.Some? && |plan.value.steps| == |next.plan.value.steps|
              && plan.value == next.plan.value.(steps := plan.value.steps)
              && forall i | 0 <= i < |plan.value.steps| :: plan.value.steps[i] == StepAfter(next.plan.value.steps[i], e)
  {
    if next.plan.Some? && !e.data.StepStarted? && !e.data.PlanUpdated? {
      assert Apply(next, e).plan == next.plan;
    }
  }

  lemma StartedPlanStays(log: seq<AgentEvent>, e: AgentEvent, p: nat, before: AnalysisPlan, after: AnalysisPlan)
    requires LastPlan(log, p) && IsStartedPlan(log, p, before) && !e.data.PlanUpdated?
    requires |after.steps| == |before.steps| && after == before.(steps := after.steps)
    requires forall i | 0 <= i < |after.steps| :: after.steps[i] == StepAfter(before.steps[i], e)
    ensures LastPlan(log + [e], p) && IsStartedPlan(log + [e], p, after)
  {
    LastPlanSnoc(log, e, p);
    assert (log + [e])[p] == log[p];
    var announced := log[p].data.plan;
    forall i | 0 <= i < |after.steps|
      ensures after.steps[i] == if StartedSince(log + [e], p, announced.steps[i].stepId)
                                then announced.steps[i].(status := StepRunning) else announced.steps[i]
    {
      StartedSnoc(log, e, p, announced.steps[i].stepId);
    }
    hide LastPlan, StartedSince;
  }

  lemma NextShowsPlan(log: seq<AgentEvent>, next: Replica, e: AgentEvent)
    requires ValidEvent(e) && !IsTerminal(e.data) && ShowsPlan(log, next.plan)
    ensures ShowsPlan(log + [e], Apply(next, e).plan)
  {
    PlanAfter(next, e);
    var longer, plan := log + [e], Apply(next, e).plan;
    forall p ensures LastPlan(longer, p) <==> if e.data.PlanUpdated? then p == |log| else LastPlan(log, p) {
      LastPlanSnoc(log, e, p);
    }
    hide Apply;
    if e.data.PlanUpdated? {
      assert longer[|log|] == e && LastPlan(longer, |log|);
      assert forall id :: !StartedSince(longer, |log|, id);
    } else {
      forall p | LastPlan(log, p) ensures plan.Some? && LastPlan(longer, p) && IsStartedPlan(longer, p, plan.value) {
        StartedPlanStays(log, e, p, next.plan.value, plan.value);
      }
    }
  }

  // ---- artifacts and evidence ----

  function ArtifactsOf(e: AgentEvent): seq<ArtifactRef> {
    if e.data.ToolCompleted? then e.data.artifacts
    else if e.response.Some? then e.response.value.artifacts
    else []
  }

  function EvidenceOf(e: AgentEvent): seq<EvidenceRef> {
    if e.data.ToolCompleted? then e.data.evidence
    else if e.response.Some? then e.response.value.evidence
    else []
  }

  /** Everything the events carried, in order. */
  function AllOf<T>(log: seq<AgentEvent>, of: AgentEvent -> seq<T>): seq<T> {
    if log == [] then [] else AllOf(log[..|log| - 1], of) + of(log[|log| - 1])
  }

  function KeysOf<T>(items: seq<T>, key: T -> string): (r: seq<string>)
    ensures |r| == |items| && forall i | 0 <= i < |items| :: r[i] == key(items[i])
  {
    seq(|items|, i requires 0 <= i < |items| => key(items[i]))
  }

  /** One item for each key of `all`, in the order the keys came, each the last that came under its key. */
  ghost predicate Collects<T(!new)>(items: seq<T>, all: seq<T>, key: T -> string) {
    && KeysOf(items, key) == FirstOccurrences(KeysOf(all, key))
    && forall x :: x in items <==> LastWith(all, key(x), key) == Some(x)
  }

  lemma KeysConcat<T>(a: seq<T>, b: seq<T>, key: T -> string)
    ensures KeysOf(a + b, key) == KeysOf(a, key) + KeysOf(b, key)
  {
  }

  lemma OneKey<T>(item: T, key: T -> string)
    ensures KeysOf([item], key) == [key(item)]
  {
  }

  lemma {:induction false} PutKeys<T(!new)>(items: seq<T>, item: T, key: T -> string)
    ensures KeysOf(Put(items, item, key), key)
            == KeysOf(items, key) + if key(item) in KeysOf(items, key) then [] else [key(item)]
  {
    hide KeysOf;
    OneKey(item, key);
    if items != [] {
      var head, rest := items[0], items[1..];
      assert items == [head] + rest;
      OneKey(head, key);
      KeysConcat([head], rest, key);
      if key(head) == key(item) {
        KeysConcat([item], rest, key);
      } else {
        PutKeys(rest, item, key);
        KeysConcat([head], Put(rest, item, key), key);
      }
    } else {
      assert KeysOf(items, key) == [];
    }
  }

  lemma FirstOccurrencesSnoc(keys: seq<string>, k: string)
    ensures FirstOccurrences(keys + [k]) == FirstOccurrences(keys) + if k in FirstOccurrences(keys) then [] else [k]
  {
    assert (keys + [k])[..|keys|] == keys;
  }

  lemma {:induction false} PutAllKeys<T(!new)>(items: seq<T>, seen: seq<string>, additions: seq<T>, key: T -> string)
    requires KeysOf(items, key) == FirstOccurrences(seen)
    ensures KeysOf(PutAll(items, additions, key), key) == FirstOccurrences(seen + KeysOf(additions, key))
    decreases |additions|
  {
    hide Put, KeysOf, FirstOccurrences;
    if additions == [] {
      assert seen + KeysOf(additions, key) == seen;
    } else {
      var first, rest := additions[0], additions[1..];
      assert additions == [first] + rest;
      PutKeys(items, first, key);
      FirstOccurrencesSnoc(seen, key(first));
      PutAllKeys(Put(items, first, key), seen + [key(first)], rest, key);
      OneKey(first, key);
      KeysConcat([first], rest, key);
      assert seen + KeysOf(additions, key) == seen + [key(first)] + KeysOf(rest, key);
    }
  }

  lemma {:induction false} DistinctLast<T(!new)>(items: seq<T>, key: T -> string, x: T)
    requires DistinctKeys(items, key)
    ensures LastWith(items, key(x), key) == Some(x) <==> x in items
  {
    if items != [] {
      var init, last := items[..|items| - 1], items[|items| - 1];
      DistinctLast(init, key, x);
      assert items == init + [last];
    }
  }

  lemma MergedKeys<T(!new)>(items: seq<T>, all: seq<T>, additions: seq<T>, key: T -> string)
    requires KeysOf(items, key) == FirstOccurrences(KeysOf(all, key)) && Distinct(KeysOf(items, key))
    ensures KeysOf(MergeBy(items, additions, key), key) == FirstOccurrences(KeysOf(all + additions, key))
  {
    hide PutAll, FirstOccurrences, Distinct, KeysOf;
    NoKeys(key);
    PutAllKeys([], [], items, key);
    assert [] + KeysOf(items, key) == KeysOf(items, key);
    DistinctIsFirst(KeysOf(items, key));
    PutAllKeys(PutAll([], items, key), KeysOf(all, key), additions, key);
    KeysConcat(all, additions, key);
  }

  lemma NoKeys<T(!new)>(key: T -> string)
    ensures KeysOf([], key) == FirstOccurrences([])
  {
  }

  lemma MergedContents<T(!new)>(items: seq<T>, all: seq<T>, additions: seq<T>, key: T -> string, x: T)
    requires forall y :: y in items <==> LastWith(all, key(y), key) == Some(y)
    requires DistinctKeys(items, key)
    ensures x in MergeBy(items, additions, key) <==> LastWith(all + additions, key(x), key) == Some(x)
  {
    MergeKeepsLast(items, additions, key, x);
    LastOfConcat(items, additions, key(x), key);
    LastOfConcat(all, additions, key(x), key);
    DistinctLast(items, key, x);
    hide MergeBy, LastWith, DistinctKeys;
  }

  lemma CollectsMore<T(!new)>(items: seq<T>, all: seq<T>, additions: seq<T>, key: T -> string)
    requires Collects(items, all, key) && DistinctKeys(items, key)
    ensures Collects(MergeBy(items, additions, key), all + additions, key)
    ensures DistinctKeys(MergeBy(items, additions, key), key)
  {
    hide MergeBy, LastWith, FirstOccurrences;
    MergedDiffer(items, additions, key);
    MergedKeys(items, all, additions, key);
    forall x ensures x in MergeBy(items, additions, key) <==> LastWith(all + additions, key(x), key) == Some(x) {
      MergedContents(items, all, additions, key, x);
    }
  }

  lemma MergedDiffer<T(!new)>(items: seq<T>, additions: seq<T>, key: T -> string)
    ensures DistinctKeys(MergeBy(items, additions, key), key)
  {
    var merged := MergeBy(items, additions, key);
    if merged != [] {
      MergeKeepsLast(items, additions, key, merged[0]);
    }
  }

  lemma {:induction false} DistinctIsFirst(keys: seq<string>)
    requires Distinct(keys)
    ensures FirstOccurrences(keys) == keys
  {
    if keys != [] {
      var init, last := keys[..|keys| - 1], keys[|keys| - 1];
      assert keys == init + [last];
      DistinctSnoc(init, last);
      DistinctIsFirst(init);
    }
  }

  // ---- the whole copy ----

  /** Everything a received log leaves on the screen before the run has ended. */
  ghost predicate Holds(log: seq<AgentEvent>, r: Replica) {
    && ShowsCalls(log, r.toolCalls) && ShowsObservations(log, r.observations)
    && Collects(r.artifacts, AllOf(log, ArtifactsOf), ArtifactKey) && DistinctKeys(r.artifacts, ArtifactKey)
    && Collects(r.evidence, AllOf(log, EvidenceOf), EvidenceKey) && DistinctKeys(r.evidence, EvidenceKey)
  }

  /** Before the end: the plan as it was announced and started, and no response. */
  ghost predicate UnderWay(log: seq<AgentEvent>, r: Replica) {
    ShowsPlan(log, r.plan) && r.stepSummaries == [] && r.response.None?
  }

  /** With every running step blocked if the run failed. */
  predicate EndsAs(plan: Option<AnalysisPlan>, shown: Option<AnalysisPlan>, failed: bool) {
    && (shown.None? <==> plan.None?)
    && (plan.Some? ==>
          && |shown.value.steps| == |plan.value.steps| && shown.value == plan.value.(steps := shown.value.steps)
          && forall i | 0 <= i < |plan.value.steps| ::
            shown.value.steps[i] == if failed && plan.value.steps[i].status.StepRunning?
                                    then plan.value.steps[i].(status := StepBlocked) else plan.value.steps[i])
  }

  /** At the end: the response, its summaries, and its plan, or the plan shown before if it brings none. */
  ghost predicate Over(before: seq<AgentEvent>, end: AgentEvent, r: Replica)
    requires end.response.Some?
  {
    var response := end.response.value;
    && r.response == end.response && r.stepSummaries == response.stepSummaries
    && if response.analysisPlan.Some? then EndsAs(response.analysisPlan, r.plan, end.data.RunFailed?)
       else exists plan :: ShowsPlan(before, plan) && EndsAs(plan, r.plan, end.data.RunFailed?)
  }

  lemma BlockedEnds(plan: Option<AnalysisPlan>)
    ensures EndsAs(plan, MarkSteps(plan, Blocked), true) && EndsAs(plan, plan, false)
  {
    if plan.Some? {
      var after := MarkSteps(plan, Blocked).value.steps;
      assert |after| == |plan.value.steps|
             && forall i | 0 <= i < |after| :: after[i] == Blocked(plan.value.steps[i]);
    }
  }

  lemma AllOfSnoc<T>(log: seq<AgentEvent>, e: AgentEvent, of: AgentEvent -> seq<T>)
    ensures AllOf(log + [e], of) == AllOf(log, of) + of(e)
  {
    assert (log + [e])[..|log|] == log;
  }

  lemma MergeNothing<T(!new)>(items: seq<T>, all: seq<T>, key: T -> string)
    requires Collects(items, all, key)
    ensures Collects(items, all + [], key)
  {
    assert all + [] == all;
  }

  lemma BroughtAfter(next: Replica, e: AgentEvent)
    requires ValidEvent(e)
    ensures var r := Apply(next, e);
            && (if e.data.ToolCompleted? || IsTerminal(e.data)
                then r.artifacts == MergeBy(next.artifacts, ArtifactsOf(e), ArtifactKey)
                     && r.evidence == MergeBy(next.evidence, EvidenceOf(e), EvidenceKey)
                else r.artifacts == next.artifacts && r.evidence == next.evidence
                     && ArtifactsOf(e) == [] && EvidenceOf(e) == [])
  {
    hide MergeBy;
  }

  lemma NextCollects(log: seq<AgentEvent>, next: Replica, e: AgentEvent)
    requires ValidEvent(e)
    requires Collects(next.artifacts, AllOf(log, ArtifactsOf), ArtifactKey) && DistinctKeys(next.artifacts, ArtifactKey)
    requires Collects(next.evidence, AllOf(log, EvidenceOf), EvidenceKey) && DistinctKeys(next.evidence, EvidenceKey)
    ensures var r := Apply(next, e);
            && Collects(r.artifacts, AllOf(log + [e], ArtifactsOf), ArtifactKey)
            && DistinctKeys(r.artifacts, ArtifactKey)
            && Collects(r.evidence, AllOf(log + [e], EvidenceOf), EvidenceKey)
            && DistinctKeys(r.evidence, EvidenceKey)
  {
    BroughtAfter(next, e);
    AllOfSnoc(log, e, ArtifactsOf);
    AllOfSnoc(log, e, EvidenceOf);
    hide Apply, MergeBy, Collects, DistinctKeys, AllOf;
    if e.data.ToolCompleted? || IsTerminal(e.data) {
      CollectsMore(next.artifacts, AllOf(log, ArtifactsOf), ArtifactsOf(e), ArtifactKey);
      CollectsMore(next.evidence, AllOf(log, EvidenceOf), EvidenceOf(e), EvidenceKey);
    } else {
      MergeNothing(next.artifacts, AllOf(log, ArtifactsOf), ArtifactKey);
      MergeNothing(next.evidence, AllOf(log, EvidenceOf), EvidenceKey);
    }
  }

  lemma NextHolds(log: seq<AgentEvent>, next: Replica, e: AgentEvent)
    requires ValidEvent(e) && Holds(log, next) && !FailedAtEnd(log)
    ensures Holds(log + [e], Apply(next, e))
  {
    hide Apply, Collects, DistinctKeys, AllOf, ShowsCalls, ShowsObservations;
    NextShowsCalls(log, next, e);
    NextShowsObservations(log, next, e);
    NextCollects(log, next, e);
  }

  lemma NextUnderWay(log: seq<AgentEvent>, next: Replica, e: AgentEvent)
    requires ValidEvent(e) && !IsTerminal(e.data) && UnderWay(log, next)
    ensures UnderWay(log + [e], Apply(next, e))
  {
    NextShowsPlan(log, next, e);
    hide ShowsPlan;
  }

  lemma NextOver(log: seq<AgentEvent>, next: Replica, e: AgentEvent)
    requires ValidEvent(e) && IsTerminal(e.data) && UnderWay(log, next)
    ensures Over(log, e, Apply(next, e))
  {
    hide ShowsPlan, MergeBy, EndsAs;
    BlockedEnds(if e.response.value.analysisPlan.Some? then e.response.value.analysisPlan else next.plan);
  }

  lemma NothingHeld()
    ensures Holds([], EMPTY) && UnderWay([], EMPTY)
  {
  }

  /** How a stored log grows: the event after it is applied, and follows nothing terminal. */
  lemma LogGrows(log: seq<AgentEvent>, runId: string)
    requires RunLog(log, runId) && log != []
    ensures var init, e := log[..|log| - 1], log[|log| - 1];
            && RunLog(init, runId) && ValidEvent(e) && ReplicaOf(init).Returned?
            && ReplicaOf(log) == Returned(Apply(RunReplica.Received(ReplicaOf(init).value, e), e))
            && (init != [] ==> !IsTerminal(init[|init| - 1].data))
  {
    var init, e := log[..|log| - 1], log[|log| - 1];
    assert log == init + [e];
    RunLogPrefix(log, runId, |init|);
    ReplicaShowsLog(init, runId);
    NextShows(ReplicaOf(init).value, init, e, runId);
  }

  /**
   * What receiving a stored log leaves in the browser's copy: the tool calls that were started, in order,
   * each running, succeeded or failed as the log says; the observations recorded, in order; one artifact
   * and one piece of evidence for each id that came, the last of each; and the last announced plan with
   * the steps started since, until the response of the ended run replaces it.
   */
  lemma {:induction false} ReplicaHoldsLog(log: seq<AgentEvent>, runId: string)
    requires RunLog(log, runId)
    ensures ReplicaOf(log).Returned? && Holds(log, ReplicaOf(log).value)
    ensures if log != [] && IsTerminal(log[|log| - 1].data)
            then log[|log| - 1].response.Some? && Over(log[..|log| - 1], log[|log| - 1], ReplicaOf(log).value)
            else UnderWay(log, ReplicaOf(log).value)
  {
    hide Apply, Holds, UnderWay, Over, RunLog, RunReplica.Received;
    if log == [] {
      NothingHeld();
    } else {
      var init, e := log[..|log| - 1], log[|log| - 1];
      assert log == init + [e];
      LogGrows(log, runId);
      ReplicaHoldsLog(init, runId);
      var r := ReplicaOf(init).value;
      var next := RunReplica.Received(r, e);
      SameHolds(init, r, e);
      NextHolds(init, next, e);
      if IsTerminal(e.data) {
        NextOver(init, next, e);
      } else {
        NextUnderWay(init, next, e);
      }
    }
  }

  lemma SameHolds(log: seq<AgentEvent>, r: Replica, e: AgentEvent)
    ensures Holds(log, r) ==> Holds(log, RunReplica.Received(r, e))
    ensures UnderWay(log, r) ==> UnderWay(log, RunReplica.Received(r, e))
  {
    hide ShowsCalls, ShowsObservations, Collects, DistinctKeys, ShowsPlan;
  }

  /** The same holds for a browser that received the events in any order and with any repetitions. */
  lemma HydratedHoldsLog(log: seq<AgentEvent>, runId: string, received: seq<AgentEvent>)
    requires RunLog(log, runId) && forall e :: e in received <==> e in log
    ensures AllValid(received) && HydrateRun(received).Returned? && Holds(log, HydrateRun(received).value)
    ensures if log != [] && IsTerminal(log[|log| - 1].data)
            then log[|log| - 1].response.Some? && Over(log[..|log| - 1], log[|log| - 1], HydrateRun(received).value)
            else UnderWay(log, HydrateRun(received).value)
  {
    hide Holds, UnderWay, Over, RunLog, HydrateRun;
    HydrateIsReplica(log, runId, received);
    ReplicaHoldsLog(log, runId);
  }

  // ---- ended here ----

  /**
   * Ending a run in the browser, because it was cancelled here or its stream failed, shows that status,
   * no question, no running call and no running step, and keeps everything else.
   */
  lemma EndedHere(r: Replica, a: Action)
    requires a.CancelledHere? || a.StreamFailed?
    ensures Reduce(r, a).Returned?
    ensures var t := Reduce(r, a).value;
            && t.status == (if a.CancelledHere? then Cancelled else Failed) && t.inputRequest.None?
            && t == r.(status := t.status, inputRequest := None, plan := t.plan, toolCalls := t.toolCalls)
            && EndsAs(r.plan, t.plan, true) && |t.toolCalls| == |r.toolCalls|
            && forall i | 0 <= i < |t.toolCalls| ::
              t.toolCalls[i] == if r.toolCalls[i].status.CallRunning? then r.toolCalls[i].(status := CallFailed)
                                else r.toolCalls[i]
  {
    BlockedEnds(r.plan);
    hide EndsAs;
  }
}
