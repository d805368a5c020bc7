/**
 * The step graph of an analysis plan: the depth-first validator that every plan
 * passes, and what an accepted plan guarantees to the loop that executes it.
 */
module PlanGraph {
  import opened AgentModels
  import opened Outcomes

  // ---- what the validator is for ----

  function StepIds(steps: seq<AnalysisStep>): (ids: seq<string>)
    ensures |ids| == |steps|
    ensures forall i | 0 <= i < |steps| :: ids[i] == steps[i].stepId
  {
    seq(|steps|, i requires 0 <= i < |steps| => steps[i].stepId)
  }

  lemma SameIds(before: seq<AnalysisStep>, after: seq<AnalysisStep>)
    requires |after| == |before| && forall i | 0 <= i < |before| :: after[i].stepId == before[i].stepId
    ensures StepIds(after) == StepIds(before)
  {
  }

  ghost predicate Distinct<T(!new)>(s: seq<T>) {
    forall i, j | 0 <= i < j < |s| :: s[i] != s[j]
  }

  lemma DistinctSnoc<T(!new)>(items: seq<T>, item: T)
    ensures Distinct(items + [item]) <==> Distinct(items) && item !in items
  {
    var longer := items + [item];
    if Distinct(longer) {
      forall i, j | 0 <= i < j < |items| ensures items[i] != items[j] {
        assert longer[i] != longer[j];
      }
      forall i | 0 <= i < |items| ensures items[i] != item {
        assert longer[i] != longer[|items|];
      }
    }
  }

  ghost predicate KnownDependencies(steps: seq<AnalysisStep>) {
    forall s, d | s in steps && d in s.dependsOn :: d in StepIds(steps)
  }

  ghost predicate Precedes(order: seq<string>, a: string, b: string) {
    exists i, j :: 0 <= i < j < |order| && order[i] == a && order[j] == b
  }

  /** `order` lists every step exactly once, each after all of its dependencies. */
  ghost predicate IsTopologicalOrder(steps: seq<AnalysisStep>, order: seq<string>) {
    && Distinct(order)
    && (forall x :: x in order <==> x in StepIds(steps))
    && (forall s, d | s in steps && d in s.dependsOn :: Precedes(order, d, s.stepId))
  }

  ghost predicate AcceptablePlan(steps: seq<AnalysisStep>) {
    && Distinct(StepIds(steps))
    && KnownDependencies(steps)
    && exists order :: IsTopologicalOrder(steps, order)
  }

  ghost predicate UniqueLists(s: AnalysisStep) {
    Distinct(s.dependsOn) && Distinct(s.expectedEvidence)
  }

  /** What a plan is checked for besides its step graph. */
  ghost predicate WellFormed(plan: AnalysisPlan) {
    && plan.revision >= 1 && plan.steps != []
    && plan.completionCriteria != [] && Distinct(plan.completionCriteria)
    && forall s | s in plan.steps :: UniqueLists(s)
  }

  ghost predicate ValidPlan(plan: AnalysisPlan) {
    WellFormed(plan) && AcceptablePlan(plan.steps)
  }

  /** Statuses do not matter to any check. */
  lemma StatusesDoNotMatter(before: AnalysisPlan, after: AnalysisPlan)
    requires ValidPlan(before) && after == before.(steps := after.steps) && |after.steps| == |before.steps|
    requires forall i | 0 <= i < |before.steps| ::
               after.steps[i] == before.steps[i].(status := after.steps[i].status)
    ensures ValidPlan(after)
  {
    SameGraphAcceptable(before.steps, after.steps);
    forall s | s in after.steps ensures UniqueLists(s) {
      var i :| 0 <= i < |after.steps| && after.steps[i] == s;
      assert UniqueLists(before.steps[i]);
    }
  }

  /** Only ids and dependencies matter to acceptance, not statuses and wording. */
  lemma SameGraphAcceptable(before: seq<AnalysisStep>, after: seq<AnalysisStep>)
    requires AcceptablePlan(before) && |after| == |before|
    requires forall i | 0 <= i < |before| ::
               after[i].stepId == before[i].stepId && after[i].dependsOn == before[i].dependsOn
    ensures AcceptablePlan(after)
  {
    SameIds(before, after);
    var order :| IsTopologicalOrder(before, order);
    forall s, d | s in after && d in s.dependsOn ensures d in StepIds(after) && Precedes(order, d, s.stepId) {
      var i :| 0 <= i < |after| && after[i] == s;
      assert before[i] in before && d in before[i].dependsOn;
    }
    assert IsTopologicalOrder(after, order);
  }

  // ---- the dependency table and its cycles ----

  type Dependencies = map<string, set<string>>

  function DependencyTable(steps: seq<AnalysisStep>): (deps: Dependencies)
    ensures forall x :: x in deps <==> x in StepIds(steps)
  {
    if steps == [] then map[]
    else
      var n := |steps| - 1;
      assert StepIds(steps) == StepIds(steps[..n]) + [steps[n].stepId];
      DependencyTable(steps[..n])[steps[n].stepId := set d | d in steps[n].dependsOn]
  }

  ghost predicate Closed(deps: Dependencies) {
    forall k, d | k in deps && d in deps[k] :: d in deps
  }

  ghost predicate Linked(deps: Dependencies, path: seq<string>) {
    && (forall x | x in path :: x in deps)
    && (forall i | 0 <= i < |path| - 1 :: path[i + 1] in deps[path[i]])
  }

  ghost predicate IsCycle(deps: Dependencies, path: seq<string>) {
    |path| >= 2 && Linked(deps, path) && path[0] == path[|path| - 1]
  }

  /** Every step in `order` stands after all of its dependencies. */
  ghost predicate Ordered(deps: Dependencies, order: seq<string>) {
    && (forall x | x in order :: x in deps)
    && (forall i, d | 0 <= i < |order| && d in deps[order[i]] :: d in order[..i])
  }

  /**
   * The two sets of the recursive `visit`, with what they mean: `visiting` is the
   * path from the root of the search, `visited` is a dependency-closed order.
   */
  class StepGraphSearch {
    const deps: Dependencies
    var visiting: set<string>
    var visited: set<string>
    ghost var path: seq<string>
    ghost var order: seq<string>

    ghost predicate Valid()
      reads this
    {
      && Closed(deps)
      && visiting !! visited
      && (forall x :: x in path <==> x in visiting)
      && (forall x :: x in order <==> x in visited)
      && Linked(deps, path)
      && Distinct(order)
      && Ordered(deps, order)
    }

    constructor (deps: Dependencies)
      requires Closed(deps)
      ensures Valid() && this.deps == deps && visiting == {} && visited == {} && path == []
    {
      this.deps := deps;
      visiting, visited, path, order := {}, {}, [], [];
    }

    method Visit(stepId: string) returns (ok: bool)
      requires Valid() && stepId in deps
      requires path == [] || stepId in deps[path[|path| - 1]]
      modifies this
      ensures ok ==> Valid() && stepId in visited && old(visited) <= visited
      ensures ok ==> visiting == old(visiting) && path == old(path)
      ensures !ok ==> exists cycle :: IsCycle(deps, cycle)
      decreases deps.Keys - visiting
    {
      if stepId in visiting {
        ghost var i :| 0 <= i < |path| && path[i] == stepId;
        assert IsCycle(deps, path[i..] + [stepId]);
        return false;
      }
      if stepId in visited {
        return true;
      }
      visiting, path := visiting + {stepId}, path + [stepId];
      var rest := deps[stepId];
      while rest != {}
        invariant Valid() && rest <= deps[stepId]
        invariant visiting == old(visiting) + {stepId} && path == old(path) + [stepId]
        invariant old(visited) <= visited && deps[stepId] - rest <= visited
        decreases rest
      {
        var dependency :| dependency in rest;
        rest := rest - {dependency};
        ok := Visit(dependency);
        if !ok {
          return;
        }
      }
      ExtendOrder(deps, order, stepId);
      visiting, path := visiting - {stepId}, old(path);
      visited, order := visited + {stepId}, order + [stepId];
      return true;
    }
  }

  lemma ExtendOrder(deps: Dependencies, order: seq<string>, x: string)
    requires Ordered(deps, order) && x in deps
    requires forall d | d in deps[x] :: d in order
    ensures Ordered(deps, order + [x])
  {
    var longer := order + [x];
    forall i, d | 0 <= i < |longer| && d in deps[longer[i]] ensures d in longer[..i] {
      assert longer[..i] == order[..i];
    }
  }

  /** The loop over all steps: either a dependency-closed order of everything, or a cycle. */
  method SearchAll(ids: seq<string>, deps: Dependencies) returns (ok: bool)
    requires Closed(deps) && forall x | x in ids :: x in deps
    ensures ok ==> exists order :: Orders(deps, ids, order)
    ensures !ok ==> exists cycle :: IsCycle(deps, cycle)
  {
    var search := new StepGraphSearch(deps);
    for n := 0 to |ids|
      invariant search.Valid() && search.deps == deps && search.path == [] && fresh(search)
      invariant forall i | 0 <= i < n :: ids[i] in search.visited
    {
      ok := search.Visit(ids[n]);
      if !ok {
        return;
      }
    }
    assert Orders(deps, ids, search.order);
    return true;
  }

  ghost predicate Orders(deps: Dependencies, ids: seq<string>, order: seq<string>) {
    Distinct(order) && Ordered(deps, order) && forall x | x in ids :: x in order
  }

  /** Source: the plan validator. It accepts exactly the plans that have a topological order. */
  method ValidateStepGraph(steps: seq<AnalysisStep>) returns (ok: bool)
    ensures ok <==> AcceptablePlan(steps)
  {
    var ids := StepIds(steps);
    DistinctByCount(ids);
    if |ids| != |set x | x in ids| {
      return false;
    }
    var deps := DependencyTable(steps);
    KnownIffClosed(steps);
    if exists k | k in deps :: exists d | d in deps[k] :: d !in deps {
      return false;
    }
    ok := SearchAll(ids, deps);
    AcceptableIffOrders(steps);
    AcceptableHasNoCycle(steps);
  }

  lemma DistinctByCount(ids: seq<string>)
    ensures Distinct(ids) <==> |ids| == |set x | x in ids|
    ensures |set x | x in ids| <= |ids|
  {
    if ids != [] {
      var n := |ids| - 1;
      var init := ids[..n];
      DistinctByCount(init);
      assert ids == init + [ids[n]];
      assert (set x | x in ids) == (set x | x in init) + {ids[n]};
      if Distinct(init) && ids[n] !in init {
        assert Distinct(ids);
      }
      if Distinct(ids) {
        assert ids[n] !in init;
      }
    }
  }

  lemma IndexIn(s: seq<string>, x: string) returns (i: nat)
    requires x in s
    ensures i < |s| && s[i] == x
  {
    i :| 0 <= i < |s| && s[i] == x;
  }

  lemma StepIn(steps: seq<AnalysisStep>, id: string) returns (i: nat)
    requires id in StepIds(steps)
    ensures i < |steps| && steps[i].stepId == id && steps[i] in steps
  {
    i := IndexIn(StepIds(steps), id);
  }

  lemma {:induction false} DependencyRow(steps: seq<AnalysisStep>, s: AnalysisStep)
    requires Distinct(StepIds(steps)) && s in steps
    ensures s.stepId in StepIds(steps) && DependencyTable(steps)[s.stepId] == set d | d in s.dependsOn
  {
    var i :| 0 <= i < |steps| && steps[i] == s;
    assert StepIds(steps)[i] == s.stepId;
    var n := |steps| - 1;
    if i < n {
      var init := steps[..n];
      assert StepIds(steps) == StepIds(init) + [steps[n].stepId];
      assert init[i] == s && StepIds(steps)[n] == steps[n].stepId;
      DependencyRow(init, s);
    }
  }

  lemma ClosedMeansKnown(steps: seq<AnalysisStep>, s: AnalysisStep, d: string)
    requires Distinct(StepIds(steps)) && Closed(DependencyTable(steps))
    requires s in steps && d in s.dependsOn
    ensures d in StepIds(steps)
  {
    DependencyRow(steps, s);
    assert d in DependencyTable(steps)[s.stepId];
    assert d in DependencyTable(steps).Keys;
  }

  lemma KnownMeansClosed(steps: seq<AnalysisStep>, k: string, d: string)
    requires Distinct(StepIds(steps)) && KnownDependencies(steps)
    requires k in DependencyTable(steps) && d in DependencyTable(steps)[k]
    ensures d in DependencyTable(steps)
  {
    var i := StepIn(steps, k);
    DependencyRow(steps, steps[i]);
    assert d in steps[i].dependsOn;
  }

  lemma KnownIffClosed(steps: seq<AnalysisStep>)
    requires Distinct(StepIds(steps))
    ensures KnownDependencies(steps) <==> Closed(DependencyTable(steps))
  {
    var deps := DependencyTable(steps);
    if Closed(deps) {
      forall s, d | s in steps && d in s.dependsOn ensures d in StepIds(steps) {
        ClosedMeansKnown(steps, s, d);
      }
    } else {
      var k, d :| k in deps && d in deps[k] && d !in deps;
      if KnownDependencies(steps) {
        KnownMeansClosed(steps, k, d);
      }
    }
  }

  lemma AcceptableIffOrders(steps: seq<AnalysisStep>)
    requires Distinct(StepIds(steps)) && Closed(DependencyTable(steps))
    ensures (exists order :: Orders(DependencyTable(steps), StepIds(steps), order)) ==> AcceptablePlan(steps)
  {
    KnownIffClosed(steps);
    var deps := DependencyTable(steps);
    if order :| Orders(deps, StepIds(steps), order) {
      forall s, d | s in steps && d in s.dependsOn ensures Precedes(order, d, s.stepId) {
        DependencyRow(steps, s);
        var j := IndexIn(order, s.stepId);
        assert d in deps[order[j]];
        var i := IndexIn(order[..j], d);
        assert order[i] == d;
      }
      assert IsTopologicalOrder(steps, order);
    }
  }

  /** Along a path of links the position in any topological order strictly falls. */
  lemma {:induction false} PathDescends(steps: seq<AnalysisStep>, order: seq<string>, path: seq<string>, k: nat)
    returns (at: nat, start: nat)
    requires Distinct(StepIds(steps)) && IsTopologicalOrder(steps, order)
    requires Linked(DependencyTable(steps), path) && k < |path|
    ensures start < |order| && order[start] == path[0]
    ensures at + k <= start && order[at] == path[k]
  {
    if k == 0 {
      assert path[0] in path;
      start := IndexIn(order, path[0]);
      at := start;
    } else {
      at, start := PathDescends(steps, order, path, k - 1);
      assert path[k - 1] in path;
      var i := StepIn(steps, path[k - 1]);
      DependencyRow(steps, steps[i]);
      assert path[k] in DependencyTable(steps)[path[k - 1]];
      assert Precedes(order, path[k], steps[i].stepId);
      var p, q :| 0 <= p < q < |order| && order[p] == path[k] && order[q] == path[k - 1];
      assert q == at;
      at := p;
    }
  }

  lemma AcceptableHasNoCycle(steps: seq<AnalysisStep>)
    ensures AcceptablePlan(steps) ==> !exists cycle :: IsCycle(DependencyTable(steps), cycle)
  {
    if AcceptablePlan(steps) {
      var order :| IsTopologicalOrder(steps, order);
      forall cycle ensures !IsCycle(DependencyTable(steps), cycle) {
        if IsCycle(DependencyTable(steps), cycle) {
          var at, start := PathDescends(steps, order, cycle, |cycle| - 1);
          assert false;
        }
      }
    }
  }

  // ---- executing an accepted plan ----

  predicate IsDone(s: AnalysisStep) {
    s.status.StepCompleted? || s.status.StepSkipped?
  }

  function DoneIds(steps: seq<AnalysisStep>): set<string> {
    set s | s in steps && IsDone(s) :: s.stepId
  }

  predicate Runnable(steps: seq<AnalysisStep>, s: AnalysisStep) {
    s.status.StepPending? && forall d | d in s.dependsOn :: d in DoneIds(steps)
  }

  /** The first pending step whose dependencies are all done: what both the planner node and the resolver select. */
  function FirstRunnable(steps: seq<AnalysisStep>): (r: Option<nat>)
    ensures r.Some? ==> r.value < |steps| && Runnable(steps, steps[r.value])
    ensures r.Some? ==> forall j | 0 <= j < r.value :: !Runnable(steps, steps[j])
    ensures r.None? ==> forall j | 0 <= j < |steps| :: !Runnable(steps, steps[j])
  {
    FirstRunnableFrom(steps, 0)
  }

  function FirstRunnableFrom(steps: seq<AnalysisStep>, from: nat): (r: Option<nat>)
    requires from <= |steps|
    ensures r.Some? ==> from <= r.value < |steps| && Runnable(steps, steps[r.value])
    ensures r.Some? ==> forall j | from <= j < r.value :: !Runnable(steps, steps[j])
    ensures r.None? ==> forall j | from <= j < |steps| :: !Runnable(steps, steps[j])
    decreases |steps| - from
  {
    if from == |steps| then None
    else if Runnable(steps, steps[from]) then Some(from)
    else FirstRunnableFrom(steps, from + 1)
  }

  /** Selection never dead-ends: if every unfinished step is pending, one of them can start. */
  lemma PlanProgress(steps: seq<AnalysisStep>)
    requires AcceptablePlan(steps)
    requires forall s | s in steps && !IsDone(s) :: s.status.StepPending?
    ensures FirstRunnable(steps).None? <==> forall s | s in steps :: IsDone(s)
  {
    var order :| IsTopologicalOrder(steps, order);
    if FirstRunnable(steps).None? {
      forall s | s in steps ensures IsDone(s) {
        if !IsDone(s) {
          var i :| 0 <= i < |steps| && steps[i] == s;
          assert StepIds(steps)[i] == s.stepId;
          var at := IndexIn(order, s.stepId);
          var j := EarliestUnfinished(steps, order, at, i);
          assert false;
        }
      }
    } else {
      assert steps[FirstRunnable(steps).value] in steps;
    }
  }

  lemma {:induction false} EarliestUnfinished(
      steps: seq<AnalysisStep>, order: seq<string>, at: nat, i: nat) returns (j: nat)
    requires Distinct(StepIds(steps)) && IsTopologicalOrder(steps, order)
    requires forall s | s in steps && !IsDone(s) :: s.status.StepPending?
    requires at < |order| && i < |steps| && order[at] == steps[i].stepId && !IsDone(steps[i])
    ensures j < |steps| && Runnable(steps, steps[j])
    decreases at
  {
    if d :| d in steps[i].dependsOn && d !in DoneIds(steps) {
      assert Precedes(order, d, steps[i].stepId);
      var p, q :| 0 <= p < q < |order| && order[p] == d && order[q] == steps[i].stepId;
      assert q == at;
      assert d in order;
      var k := StepIn(steps, d);
      j := EarliestUnfinished(steps, order, p, k);
    } else {
      j := i;
      assert steps[i] in steps;
    }
  }
}
