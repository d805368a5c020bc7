/** Server-owned guards: node entry, budgets and the planner's decision. */
module AgentGuard {
  import opened Outcomes
  import opened AgentModels
  import opened AgentRouting

  /** A terminal run, a cancelled run and a run past its deadline enter no node. */
  function EnsureNodeEntry(status: AgentStatus, budget: BudgetState, now: int, cancelled: bool): Option<ErrorCode> {
    if IsTerminalStatus(status) then Some(AGENT_ACTION_NOT_ALLOWED)
    else if cancelled then Some(CANCELLED)
    else if now >= budget.deadlineAt then Some(DEADLINE_EXCEEDED)
    else None
  }

  // ---- budgets ----

  function Exhausted(c: Counter): ErrorCode {
    if c.AgentSteps? then AGENT_MAX_STEPS_EXCEEDED else AGENT_BUDGET_EXCEEDED
  }

  /** The counters drawn one after the other; the first that is at its limit refuses them all. */
  function Consume(budget: BudgetState, limits: RunBudget, counters: seq<Counter>): Outcome<BudgetState, ErrorCode> {
    if counters == [] then Returned(budget)
    else
      match Consume(budget, limits, counters[..|counters| - 1])
      case Raised(e) => Raised(e)
      case Returned(b) =>
        var c := counters[|counters| - 1];
        if b.Spent(c) >= limits.Limit(c) then Raised(Exhausted(c)) else Returned(b.With(c, b.Spent(c) + 1))
  }

  predicate HasRoom(budget: BudgetState, limits: RunBudget, counters: seq<Counter>) {
    forall c | c in counters :: budget.Spent(c) + multiset(counters)[c] <= limits.Limit(c)
  }

  lemma WithSets(b: BudgetState, c: Counter, d: Counter, n: nat)
    ensures b.With(c, n).Spent(d) == if c == d then n else b.Spent(d)
    ensures b.With(c, n).startedAt == b.startedAt && b.With(c, n).deadlineAt == b.deadlineAt
  {
  }

  /** A draw that succeeds adds one for each occurrence of a counter, and nothing else. */
  lemma {:induction false} ConsumeAdds(budget: BudgetState, limits: RunBudget, counters: seq<Counter>, d: Counter)
    requires Consume(budget, limits, counters).Returned?
    ensures Consume(budget, limits, counters).value.Spent(d) == budget.Spent(d) + multiset(counters)[d]
    ensures Consume(budget, limits, counters).value.startedAt == budget.startedAt
    ensures Consume(budget, limits, counters).value.deadlineAt == budget.deadlineAt
  {
    if counters != [] {
      var init, c := counters[..|counters| - 1], counters[|counters| - 1];
      ConsumeAdds(budget, limits, init, d);
      assert counters == init + [c];
      WithSets(Consume(budget, limits, init).value, c, d, Consume(budget, limits, init).value.Spent(c) + 1);
    }
  }

  lemma HasRoomSnoc(budget: BudgetState, limits: RunBudget, init: seq<Counter>, c: Counter)
    ensures HasRoom(budget, limits, init + [c]) <==>
            HasRoom(budget, limits, init) && budget.Spent(c) + multiset(init)[c] < limits.Limit(c)
  {
    var all := init + [c];
    assert multiset(all) == multiset(init) + multiset{c};
    if HasRoom(budget, limits, all) {
      assert c in all;
      forall d | d in init ensures budget.Spent(d) + multiset(init)[d] <= limits.Limit(d) {
        assert d in all;
      }
    }
  }

  /** A draw succeeds exactly when every counter named has room for all its occurrences. */
  lemma {:induction false} ConsumeIffRoom(budget: BudgetState, limits: RunBudget, counters: seq<Counter>)
    ensures Consume(budget, limits, counters).Returned? <==> HasRoom(budget, limits, counters)
  {
    if counters != [] {
      var init, c := counters[..|counters| - 1], counters[|counters| - 1];
      assert counters == init + [c];
      ConsumeIffRoom(budget, limits, init);
      HasRoomSnoc(budget, limits, init, c);
      if Consume(budget, limits, init).Returned? {
        ConsumeAdds(budget, limits, init, c);
      }
    }
  }

  /** A refusal names the first counter that has no room left. */
  lemma {:induction false} RefusalNamesFirst(
      budget: BudgetState, limits: RunBudget, counters: seq<Counter>) returns (k: nat)
    requires !HasRoom(budget, limits, counters)
    ensures k < |counters| && HasRoom(budget, limits, counters[..k]) && !HasRoom(budget, limits, counters[..k + 1])
    ensures Consume(budget, limits, counters)
            == Raised(if counters[k].AgentSteps? then AGENT_MAX_STEPS_EXCEEDED else AGENT_BUDGET_EXCEEDED)
  {
    ConsumeIffRoom(budget, limits, counters);
    k := |counters| - 1;
    var init := counters[..k];
    ConsumeIffRoom(budget, limits, init);
    assert counters[..k + 1] == counters;
    if !HasRoom(budget, limits, init) {
      k := RefusalNamesFirst(budget, limits, init);
      assert init[..k] == counters[..k] && init[..k + 1] == counters[..k + 1];
    }
  }

  /** The budget with the pending updates written into it. */
  function Updated(budget: BudgetState, updates: map<Counter, nat>): BudgetState {
    BudgetState(
      if AgentSteps in updates then updates[AgentSteps] else budget.agentSteps,
      if ModelCalls in updates then updates[ModelCalls] else budget.modelCalls,
      if ToolCalls in updates then updates[ToolCalls] else budget.toolCalls,
      if QueryCompiles in updates then updates[QueryCompiles] else budget.queryCompiles,
      if QueryPreviews in updates then updates[QueryPreviews] else budget.queryPreviews,
      if QueryExecutes in updates then updates[QueryExecutes] else budget.queryExecutes,
      if Replans in updates then updates[Replans] else budget.replans,
      budget.startedAt,
      budget.deadlineAt)
  }

  lemma UpdatedSpends(budget: BudgetState, updates: map<Counter, nat>, c: Counter, n: nat)
    ensures Updated(budget, updates).Spent(c) == if c in updates then updates[c] else budget.Spent(c)
    ensures Updated(budget, updates[c := n]) == Updated(budget, updates).With(c, n)
  {
  }

  lemma NothingDrawn(budget: BudgetState, limits: RunBudget)
    ensures Consume(budget, limits, []) == Returned(Updated(budget, map[]))
  {
  }

  lemma ConsumeMore(budget: BudgetState, limits: RunBudget, init: seq<Counter>, c: Counter)
    requires Consume(budget, limits, init).Returned?
    ensures var b := Consume(budget, limits, init).value;
            Consume(budget, limits, init + [c]) ==
            if b.Spent(c) >= limits.Limit(c) then Raised(Exhausted(c)) else Returned(b.With(c, b.Spent(c) + 1))
  {
    assert (init + [c])[..|init|] == init;
  }

  method ConsumeBudget(budget: BudgetState, limits: RunBudget, counters: seq<Counter>)
    returns (r: Outcome<BudgetState, ErrorCode>)
    ensures r == Consume(budget, limits, counters)
  {
    hide Exhausted, Consume, Updated, BudgetState.With, BudgetState.Spent, RunBudget.Limit;
    var updates: map<Counter, nat> := map[];
    NothingDrawn(budget, limits);
    for i := 0 to |counters|
      invariant Consume(budget, limits, counters[..i]) == Returned(Updated(budget, updates))
    {
      var counter := counters[i];
      assert counters[..i + 1] == counters[..i] + [counter];
      var current := if counter in updates then updates[counter] else budget.Spent(counter);
      UpdatedSpends(budget, updates, counter, current + 1);
      ConsumeMore(budget, limits, counters[..i], counter);
      if current >= limits.Limit(counter) {
        RefusedPrefix(budget, limits, counters, i);
        return Raised(Exhausted(counter));
      }
      updates := updates[counter := current + 1];
    }
    assert counters[..|counters|] == counters;
    return Returned(Updated(budget, updates));
  }

  // What refuses a prefix refuses the whole draw.
  lemma {:induction false} RefusedPrefix(budget: BudgetState, limits: RunBudget, counters: seq<Counter>, i: nat)
    requires i < |counters| && Consume(budget, limits, counters[..i + 1]).Raised?
    ensures Consume(budget, limits, counters) == Consume(budget, limits, counters[..i + 1])
    decreases |counters|
  {
    if i + 1 == |counters| {
      assert counters[..i + 1] == counters;
    } else {
      var init := counters[..|counters| - 1];
      assert init[..i + 1] == counters[..i + 1];
      RefusedPrefix(budget, limits, init, i);
    }
  }

  /** The counter of its own that a query tool has. */
  function OwnCounter(toolName: string): Option<Counter> {
    if toolName == "query.compile" then Some(QueryCompiles)
    else if toolName == "query.preview" then Some(QueryPreviews)
    else if toolName == "query.execute" then Some(QueryExecutes)
    else None
  }

  /**
   * What a draw for a tool means: one tool call first, and at most one unit of one further counter,
   * the tool's own; no step, model call or replan.
   */
  method ToolBudgetCounters(toolName: string) returns (counters: seq<Counter>)
    ensures counters == CountersOf(toolName) && counters != [] && counters[0] == ToolCalls
    ensures forall c :: multiset(counters)[c] == if c.ToolCalls? || OwnCounter(toolName) == Some(c) then 1 else 0
    ensures |counters| <= 2 && forall c | c in {AgentSteps, ModelCalls, Replans} :: c !in counters
  {
    counters := [ToolCalls];
    if toolName == "query.compile" {
      counters := counters + [QueryCompiles];
    } else if toolName == "query.preview" {
      counters := counters + [QueryPreviews];
    } else if toolName == "query.execute" {
      counters := counters + [QueryExecutes];
    }
  }

  function CountersOf(toolName: string): seq<Counter> {
    if toolName == "query.compile" then [ToolCalls, QueryCompiles]
    else if toolName == "query.preview" then [ToolCalls, QueryPreviews]
    else if toolName == "query.execute" then [ToolCalls, QueryExecutes]
    else [ToolCalls]
  }

  /** Queries of the three counted kinds are tool calls, and every tool call is an agent step. */
  predicate BudgetChain(b: BudgetState, limits: RunBudget) {
    && b.queryCompiles + b.queryPreviews + b.queryExecutes <= b.toolCalls <= b.agentSteps <= limits.maxAgentSteps
    && b.replans <= b.agentSteps
    && WithinLimits(b, limits)
  }

  predicate WithinLimits(b: BudgetState, limits: RunBudget) {
    && b.agentSteps <= limits.maxAgentSteps && b.modelCalls <= limits.maxModelCalls
       && b.toolCalls <= limits.maxToolCalls
    && b.queryCompiles <= limits.maxQueryCompiles && b.queryPreviews <= limits.maxQueryPreviews
    && b.queryExecutes <= limits.maxQueryExecutes && b.replans <= limits.maxReplans
  }

  predicate NoLess(before: BudgetState, after: BudgetState) {
    && before.agentSteps <= after.agentSteps && before.modelCalls <= after.modelCalls
       && before.toolCalls <= after.toolCalls
    && before.queryCompiles <= after.queryCompiles && before.queryPreviews <= after.queryPreviews
    && before.queryExecutes <= after.queryExecutes && before.replans <= after.replans
    && before.startedAt == after.startedAt && before.deadlineAt == after.deadlineAt
  }

  // ---- the planner's decision ----

  datatype ToolSpec = ToolSpec(datasetAuthority: bool, allowedModes: set<AgentMode>, accepts: string -> bool)

  /** An action goes through only for a listed dataset tool allowed in the mode, with arguments its schema accepts. */
  function GuardPlannerDecision(d: PlannerDecision, mode: AgentMode, allowed: seq<string>, specs: map<string, ToolSpec>)
    : Outcome<Node, ErrorCode>
  {
    match d.kind
    case Clarify => Returned(RequestInput)
    case Finish => Returned(SynthesizeAnswer)
    case GiveUp => Returned(Fail)
    case Act =>
      if d.nextAction.None? then Raised(AGENT_DECISION_INVALID)
      else
        var action := d.nextAction.value;
        if action.toolName !in specs || action.toolName !in allowed then Raised(AGENT_ACTION_NOT_ALLOWED)
        else if !specs[action.toolName].datasetAuthority || mode !in specs[action.toolName].allowedModes then
          Raised(AGENT_ACTION_NOT_ALLOWED)
        else if !specs[action.toolName].accepts(action.arguments) then Raised(AGENT_DECISION_INVALID)
        else Returned(ExecuteTool)
  }
}
