/**
 * How a plan may change while it is carried out, and what every such change keeps: unique ids, an
 * acyclic step graph, and an execution order that respects the dependencies.
 */
module PlanEdits {
  import opened AgentModels
  import opened PlanGraph

  /** A step keeps its id, dependencies and status; one that is pending or blocked may be skipped. */
  predicate KeepsStep(was: AnalysisStep, now: AnalysisStep) {
    && now.stepId == was.stepId && now.dependsOn == was.dependsOn
    && (now.status == was.status || (now.status.StepSkipped? && (was.status.StepPending? || was.status.StepBlocked?)))
  }

  predicate NewStep(before: seq<AnalysisStep>, s: AnalysisStep) {
    s.status.StepPending? && forall d | d in s.dependsOn :: d in DoneIds(before)
  }

  /** Old steps stay where they are; new ones are pending, have new ids and wait for finished steps only. */
  ghost predicate Edits(before: seq<AnalysisStep>, after: seq<AnalysisStep>) {
    && |before| <= |after|
    && (forall i | 0 <= i < |before| :: KeepsStep(before[i], after[i]))
    && (forall i | |before| <= i < |after| :: NewStep(before, after[i]))
    && Distinct(StepIds(after))
  }

  lemma DoneIsKnown(steps: seq<AnalysisStep>, d: string)
    requires d in DoneIds(steps)
    ensures d in StepIds(steps)
  {
    var s :| s in steps && IsDone(s) && s.stepId == d;
    var i :| 0 <= i < |steps| && steps[i] == s;
    assert StepIds(steps)[i] == d;
  }

  lemma DependenciesStayKnown(before: seq<AnalysisStep>, after: seq<AnalysisStep>, i: nat, d: string)
    requires KnownDependencies(before) && Edits(before, after) && i < |after| && d in after[i].dependsOn
    ensures d in StepIds(before) && d in StepIds(after)
  {
    if i < |before| {
      assert KeepsStep(before[i], after[i]) && before[i] in before && d in before[i].dependsOn;
    } else {
      assert NewStep(before, after[i]);
      DoneIsKnown(before, d);
    }
    assert d in StepIds(before);
    var j :| 0 <= j < |before| && StepIds(before)[j] == d;
    assert KeepsStep(before[j], after[j]);
    assert StepIds(after)[j] == d;
  }

  /** An edited plan passes the validator again, as it does whenever the plan is read back from the state. */
  lemma EditsKeepAcceptable(before: seq<AnalysisStep>, after: seq<AnalysisStep>)
    requires AcceptablePlan(before) && Edits(before, after)
    ensures AcceptablePlan(after)
  {
    var order :| IsTopologicalOrder(before, order);
    var added := StepIds(after)[|before|..];
    OldIds(before, after);
    assert KnownDependencies(after) by {
      forall s, d | s in after && d in s.dependsOn ensures d in StepIds(after) {
        var i :| 0 <= i < |after| && after[i] == s;
        DependenciesStayKnown(before, after, i, d);
      }
    }
    assert IsTopologicalOrder(after, order + added) by {
      LongerOrderIsDistinct(before, after, order);
      forall s, d | s in after && d in s.dependsOn ensures Precedes(order + added, d, s.stepId) {
        var i :| 0 <= i < |after| && after[i] == s;
        DependenciesStayKnown(before, after, i, d);
        DependencyPrecedes(before, after, order, i, d);
      }
    }
  }

  lemma OldIds(before: seq<AnalysisStep>, after: seq<AnalysisStep>)
    requires Edits(before, after)
    ensures StepIds(after)[..|before|] == StepIds(before)
  {
    forall i | 0 <= i < |before| ensures StepIds(after)[i] == StepIds(before)[i] {
      assert KeepsStep(before[i], after[i]);
    }
  }

  lemma LongerOrderIsDistinct(before: seq<AnalysisStep>, after: seq<AnalysisStep>, order: seq<string>)
    requires Edits(before, after) && IsTopologicalOrder(before, order)
    ensures Distinct(order + StepIds(after)[|before|..])
    ensures forall x :: x in order + StepIds(after)[|before|..] <==> x in StepIds(after)
  {
    var ids := StepIds(after);
    var n := |before|;
    OldIds(before, after);
    assert ids == ids[..n] + ids[n..];
    var longer := order + ids[n..];
    forall i, j | 0 <= i < j < |longer| ensures longer[i] != longer[j] {
      if i < |order| && j >= |order| {
        assert order[i] in order && order[i] in ids[..n];
        var k :| 0 <= k < n && ids[..n][k] == order[i];
        assert ids[k] != ids[n + j - |order|];
      } else if i >= |order| {
        assert ids[n + i - |order|] != ids[n + j - |order|];
      }
    }
  }

  lemma DependencyPrecedes(before: seq<AnalysisStep>, after: seq<AnalysisStep>, order: seq<string>, i: nat, d: string)
    requires Edits(before, after) && IsTopologicalOrder(before, order)
    requires i < |after| && d in after[i].dependsOn && d in StepIds(before)
    ensures Precedes(order + StepIds(after)[|before|..], d, after[i].stepId)
  {
    var added := StepIds(after)[|before|..];
    if i < |before| {
      assert KeepsStep(before[i], after[i]) && before[i] in before;
      assert Precedes(order, d, after[i].stepId);
      var p, q :| 0 <= p < q < |order| && order[p] == d && order[q] == after[i].stepId;
      assert (order + added)[p] == d && (order + added)[q] == after[i].stepId;
    } else {
      assert d in order;
      var p :| 0 <= p < |order| && order[p] == d;
      var q := |order| + i - |before|;
      assert (order + added)[p] == d && (order + added)[q] == after[i].stepId;
    }
  }

  // ---- the order of execution ----

  predicate IsSkipped(steps: seq<AnalysisStep>, id: string) {
    exists i | 0 <= i < |steps| :: steps[i].stepId == id && steps[i].status.StepSkipped?
  }

  /** What a step waited for was started before it, or was skipped without ever being started. */
  predicate DependencyMet(steps: seq<AnalysisStep>, started: seq<string>, k: nat, d: string)
    requires k < |started|
  {
    d in started[..k] || (d !in started && IsSkipped(steps, d))
  }

  /** The steps started so far, in order: a linear extension of the dependencies of the plan as it is now. */
  ghost predicate InOrder(steps: seq<AnalysisStep>, started: seq<string>) {
    && Distinct(StepIds(steps)) && Distinct(started)
    && (forall id | id in started :: id in StepIds(steps))
    && (forall i | 0 <= i < |steps| :: steps[i].status.StepPending? ==> steps[i].stepId !in started)
    && (forall i | 0 <= i < |steps| :: steps[i].status.StepCompleted? ==> steps[i].stepId in started)
    && DependenciesMet(steps, started)
  }

  ghost predicate DependenciesMet(steps: seq<AnalysisStep>, started: seq<string>) {
    forall k, i, d | 0 <= k < |started| && 0 <= i < |steps| && steps[i].stepId == started[k]
        && d in steps[i].dependsOn ::
      DependencyMet(steps, started, k, d)
  }

  /** Under its id, a step of `after` waits for nothing that it did not wait for before. */
  predicate NoNewDependencies(before: seq<AnalysisStep>, now: AnalysisStep) {
    exists i | 0 <= i < |before| ::
      before[i].stepId == now.stepId && forall d | d in now.dependsOn :: d in before[i].dependsOn
  }

  /**
   * A new plan takes up where the run is: unique ids; every step started is still there, not pending
   * again, with no new dependency; only started steps are completed; and a step that was skipped
   * without being started stays skipped. Everything else may be rewritten.
   */
  ghost predicate TakesUp(before: seq<AnalysisStep>, after: seq<AnalysisStep>, started: seq<string>) {
    && Distinct(StepIds(after))
    && (forall id | id in started :: id in StepIds(after))
    && (forall i | 0 <= i < |after| && after[i].stepId in started ::
          !after[i].status.StepPending? && NoNewDependencies(before, after[i]))
    && (forall i | 0 <= i < |after| && after[i].status.StepCompleted? :: after[i].stepId in started)
    && (forall id | IsSkipped(before, id) && id !in started :: IsSkipped(after, id))
  }

  /** Then the steps started so far are as much in order under the new plan as they were under the old one. */
  lemma TakingUpKeepsOrder(before: seq<AnalysisStep>, after: seq<AnalysisStep>, started: seq<string>)
    requires InOrder(before, started) && TakesUp(before, after, started)
    ensures InOrder(after, started)
  {
    forall k, i, d | 0 <= k < |started| && 0 <= i < |after| && after[i].stepId == started[k] && d in after[i].dependsOn
      ensures DependencyMet(after, started, k, d)
    {
      assert NoNewDependencies(before, after[i]);
      var j :| 0 <= j < |before| && before[j].stepId == after[i].stepId && d in before[j].dependsOn;
      assert DependencyMet(before, started, k, d);
    }
  }

  /** An edit takes up where the run is, whatever was started. */
  lemma EditTakesUp(before: seq<AnalysisStep>, after: seq<AnalysisStep>, started: seq<string>)
    requires InOrder(before, started) && Edits(before, after)
    ensures TakesUp(before, after, started)
  {
    OldIds(before, after);
    var ids := StepIds(after);
    forall id | id in started ensures id in ids {
      assert id in ids[..|before|];
    }
    forall i | 0 <= i < |after|
      ensures after[i].stepId in started ==> !after[i].status.StepPending? && NoNewDependencies(before, after[i])
      ensures after[i].status.StepCompleted? ==> after[i].stepId in started
    {
      if i < |before| {
        assert KeepsStep(before[i], after[i]);
      } else {
        assert NewStep(before, after[i]);
        assert ids[i] !in ids[..|before|];
      }
    }
    forall id | IsSkipped(before, id) && id !in started ensures IsSkipped(after, id) {
      var j :| 0 <= j < |before| && before[j].stepId == id && before[j].status.StepSkipped?;
      assert KeepsStep(before[j], after[j]);
    }
  }

  lemma EditKeepsOrder(before: seq<AnalysisStep>, after: seq<AnalysisStep>, started: seq<string>)
    requires InOrder(before, started) && Edits(before, after)
    ensures InOrder(after, started)
  {
    EditTakesUp(before, after, started);
    TakingUpKeepsOrder(before, after, started);
  }

  /** One step gets another status, the others stay. */
  predicate Restates(before: seq<AnalysisStep>, after: seq<AnalysisStep>, id: string, status: StepStatus) {
    |after| == |before|
    && forall i | 0 <= i < |before| :: after[i] == if before[i].stepId == id then before[i].(status := status)
       else before[i]
  }

  /** What a step waits for was started, or skipped. */
  predicate WaitsForStarted(steps: seq<AnalysisStep>, started: seq<string>, step: AnalysisStep) {
    forall d | d in step.dependsOn :: d in started || IsSkipped(steps, d)
  }

  /** Starting a runnable step keeps the dependencies met exactly if they were met and it waits for nothing else. */
  lemma StartMeetsIff(before: seq<AnalysisStep>, after: seq<AnalysisStep>, started: seq<string>, at: nat)
    requires Distinct(StepIds(before)) && at < |before| && Runnable(before, before[at])
    requires Restates(before, after, before[at].stepId, StepRunning) && before[at].stepId !in started
    ensures DependenciesMet(after, started + [before[at].stepId]) <==>
            DependenciesMet(before, started) && WaitsForStarted(before, started, before[at])
  {
    var longer := started + [before[at].stepId];
    if DependenciesMet(after, longer) {
      StartWasMet(before, after, started, at);
      forall d | d in before[at].dependsOn ensures d in started || IsSkipped(before, d) {
        assert longer[|started|] == after[at].stepId && longer[..|started|] == started;
        assert DependencyMet(after, longer, |started|, d);
        if d !in started {
          var j :| 0 <= j < |after| && after[j].stepId == d && after[j].status.StepSkipped?;
          assert before[j].stepId == d && before[j].status.StepSkipped?;
        }
      }
    } else if DependenciesMet(before, started) && WaitsForStarted(before, started, before[at]) {
      StartIsMet(before, after, started, at);
    }
  }

  lemma StartIsMet(before: seq<AnalysisStep>, after: seq<AnalysisStep>, started: seq<string>, at: nat)
    requires Distinct(StepIds(before)) && at < |before| && Runnable(before, before[at])
    requires Restates(before, after, before[at].stepId, StepRunning) && before[at].stepId !in started
    requires DependenciesMet(before, started) && WaitsForStarted(before, started, before[at])
    ensures DependenciesMet(after, started + [before[at].stepId])
  {
    var id := before[at].stepId;
    var longer := started + [id];
    assert StepIds(before)[at] == id;
    forall k, i, d | 0 <= k < |longer| && 0 <= i < |after| && after[i].stepId == longer[k] && d in after[i].dependsOn
      ensures DependencyMet(after, longer, k, d)
    {
      if k < |started| {
        assert longer[..k] == started[..k];
        assert DependencyMet(before, started, k, d);
      } else {
        assert StepIds(before)[i] == id;
        assert longer[..k] == started && i == at;
      }
      if d !in longer[..k] {
        SkippedStays(before, after, at, d);
      }
    }
  }

  lemma SkippedStays(before: seq<AnalysisStep>, after: seq<AnalysisStep>, at: nat, d: string)
    requires Distinct(StepIds(before)) && at < |before| && before[at].status.StepPending? && IsSkipped(before, d)
    requires Restates(before, after, before[at].stepId, StepRunning)
    ensures IsSkipped(after, d) && d != before[at].stepId
  {
    var j :| 0 <= j < |before| && before[j].stepId == d && before[j].status.StepSkipped?;
    assert StepIds(before)[j] == d && StepIds(before)[at] == before[at].stepId && j != at;
    assert after[j] == before[j];
  }

  lemma StartKeepsOrder(before: seq<AnalysisStep>, after: seq<AnalysisStep>, started: seq<string>, at: nat)
    requires InOrder(before, started) && at < |before| && Runnable(before, before[at])
    requires Restates(before, after, before[at].stepId, StepRunning)
    ensures InOrder(after, started + [before[at].stepId])
  {
    var longer := started + [before[at].stepId];
    SameIds(before, after);
    assert StepIds(before)[at] == before[at].stepId;
    forall d | d in before[at].dependsOn ensures d in started || IsSkipped(before, d) {
      DoneIsStartedOrSkipped(before, started, d);
    }
    StartIsMet(before, after, started, at);
    forall i | 0 <= i < |after| ensures after[i].status.StepPending? ==> after[i].stepId !in longer {
      assert StepIds(before)[i] == before[i].stepId;
    }
  }

  /** Conversely, a plan whose runnable step was started in order was in order before. */
  lemma StartWasInOrder(before: seq<AnalysisStep>, after: seq<AnalysisStep>, started: seq<string>, at: nat)
    requires Distinct(StepIds(before)) && at < |before| && before[at].status.StepPending?
    requires Restates(before, after, before[at].stepId, StepRunning)
    requires InOrder(after, started + [before[at].stepId])
    ensures InOrder(before, started)
  {
    var id := before[at].stepId;
    var longer := started + [id];
    SameIds(before, after);
    assert longer[|started|] == id;
    forall i, j | 0 <= i < j < |started| ensures started[i] != started[j] {
      assert longer[i] != longer[j];
    }
    forall x | x in started ensures x in StepIds(before) && x != id {
      var k :| 0 <= k < |started| && started[k] == x;
      assert longer[k] == x && x in longer;
    }
    forall i | 0 <= i < |before|
      ensures before[i].status.StepPending? ==> before[i].stepId !in started
      ensures before[i].status.StepCompleted? ==> before[i].stepId in started
    {
      assert StepIds(before)[i] == before[i].stepId;
    }
    StartWasMet(before, after, started, at);
  }

  lemma StartWasMet(before: seq<AnalysisStep>, after: seq<AnalysisStep>, started: seq<string>, at: nat)
    requires Distinct(StepIds(before)) && at < |before| && before[at].status.StepPending?
    requires Restates(before, after, before[at].stepId, StepRunning)
    requires DependenciesMet(after, started + [before[at].stepId])
    ensures DependenciesMet(before, started)
  {
    var longer := started + [before[at].stepId];
    forall k, i, d | 0 <= k < |started| && 0 <= i < |before| && before[i].stepId == started[k]
        && d in before[i].dependsOn
      ensures DependencyMet(before, started, k, d)
    {
      assert longer[k] == started[k] && longer[..k] == started[..k];
      assert DependencyMet(after, longer, k, d);
      if d !in started[..k] {
        var j :| 0 <= j < |after| && after[j].stepId == d && after[j].status.StepSkipped?;
        assert before[j].stepId == d && before[j].status.StepSkipped?;
      }
    }
  }

  lemma DoneIsStartedOrSkipped(steps: seq<AnalysisStep>, started: seq<string>, d: string)
    requires InOrder(steps, started) && d in DoneIds(steps)
    ensures d in started || IsSkipped(steps, d)
  {
    var s :| s in steps && IsDone(s) && s.stepId == d;
    var i :| 0 <= i < |steps| && steps[i] == s;
  }

  // The skipped steps that were never started are still skipped.
  lemma SkippedKeepsMet(before: seq<AnalysisStep>, after: seq<AnalysisStep>, started: seq<string>)
    requires DependenciesMet(before, started) && |after| == |before|
    requires forall i | 0 <= i < |before| ::
               after[i].stepId == before[i].stepId && after[i].dependsOn == before[i].dependsOn
    requires forall i | 0 <= i < |before| && before[i].status.StepSkipped? && before[i].stepId !in started ::
             after[i] == before[i]
    ensures DependenciesMet(after, started)
  {
    forall k, i, d | 0 <= k < |started| && 0 <= i < |after| && after[i].stepId == started[k] && d in after[i].dependsOn
      ensures DependencyMet(after, started, k, d)
    {
      assert DependencyMet(before, started, k, d);
      if d !in started[..k] {
        var j :| 0 <= j < |before| && before[j].stepId == d && before[j].status.StepSkipped?;
        assert after[j] == before[j];
      }
    }
  }

  /** An outcome is recorded for a step that was started. */
  lemma OutcomeKeepsOrder(
      before: seq<AnalysisStep>, after: seq<AnalysisStep>, started: seq<string>, id: string, status: StepStatus)
    requires InOrder(before, started) && id in started && Restates(before, after, id, status)
    requires status.StepCompleted? || status.StepBlocked?
    ensures InOrder(after, started)
  {
    SameIds(before, after);
    SkippedKeepsMet(before, after, started);
  }

  /** When a run fails, what still runs is blocked. */
  predicate BlocksRunning(before: seq<AnalysisStep>, after: seq<AnalysisStep>) {
    && |after| == |before|
    && forall i | 0 <= i < |before| ::
         after[i] == if before[i].status.StepRunning? then before[i].(status := StepBlocked) else before[i]
  }

  lemma BlockingKeepsOrder(before: seq<AnalysisStep>, after: seq<AnalysisStep>, started: seq<string>)
    requires InOrder(before, started) && BlocksRunning(before, after)
    ensures InOrder(after, started)
  {
    SameIds(before, after);
    SkippedKeepsMet(before, after, started);
  }

  /** A plan whose steps are all pending starts an execution. */
  lemma PendingIsInOrder(steps: seq<AnalysisStep>)
    requires Distinct(StepIds(steps)) && forall i | 0 <= i < |steps| :: steps[i].status.StepPending?
    ensures InOrder(steps, [])
  {
  }
}
