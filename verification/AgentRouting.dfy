/** The thirteen nodes of the analysis graph and the routers between them. */
module AgentRouting {
  import opened Outcomes

  datatype Node =
    | InitializeRun
    | LoadContext
    | PlanOrReplan
    | GuardDecision
    | ExecuteTool
    | ObserveResult
    | EvaluateProgress
    | RequestInput
    | SynthesizeAnswer
    | ValidateAnswer
    | PersistTurn
    | FinalizeRun
    | Fail

  /** Where a router sends the run: a node, or the end. */
  datatype Target = To(node: Node) | End

  datatype RoutingError = InvalidRoute

  /** The five names of the routing enum; other node names are not values of it. */
  predicate IsAgentRoute(n: Node) {
    n.ExecuteTool? || n.RequestInput? || n.SynthesizeAnswer? || n.PlanOrReplan? || n.Fail?
  }

  function ClosedRoute(next: Option<Node>, allowed: set<Node>): Outcome<Node, RoutingError> {
    if next.None? || !IsAgentRoute(next.value) then Raised(InvalidRoute)
    else if next.value !in allowed then Raised(InvalidRoute)
    else Returned(next.value)
  }

  function RouteAfterGuard(next: Option<Node>): Outcome<Node, RoutingError> {
    ClosedRoute(next, {ExecuteTool, RequestInput, SynthesizeAnswer, Fail})
  }

  function RouteAfterEvaluation(next: Option<Node>): Outcome<Node, RoutingError> {
    ClosedRoute(next, {PlanOrReplan, RequestInput, SynthesizeAnswer, Fail})
  }

  function NextOrFail(failed: bool, next: Option<Node>, expected: Node): Outcome<Node, RoutingError> {
    if failed then Returned(Fail)
    else if next != Some(expected) then Raised(InvalidRoute)
    else Returned(expected)
  }

  /** The edge out of each node, fixed or conditional, for a state with or without an error. */
  function Edge(from: Node, failed: bool, next: Option<Node>): Outcome<Target, RoutingError> {
    match from
    case InitializeRun => Towards(NextOrFail(failed, next, LoadContext))
    case LoadContext => Towards(NextOrFail(failed, next, PlanOrReplan))
    case PlanOrReplan => Returned(To(GuardDecision))
    case GuardDecision => Towards(RouteAfterGuard(next))
    case ExecuteTool => Towards(NextOrFail(failed, next, ObserveResult))
    case ObserveResult => Towards(NextOrFail(failed, next, EvaluateProgress))
    case EvaluateProgress => Towards(RouteAfterEvaluation(next))
    case RequestInput => Returned(To(PlanOrReplan))
    case SynthesizeAnswer => Towards(NextOrFail(failed, next, ValidateAnswer))
    case ValidateAnswer => Towards(NextOrFail(failed, next, PersistTurn))
    case PersistTurn => Towards(NextOrFail(failed, next, FinalizeRun))
    case FinalizeRun => if failed then Returned(To(Fail)) else Returned(End)
    case Fail => Returned(End)
  }

  /** The edges of the compiled graph. */
  function Targets(from: Node): set<Target> {
    match from
    case InitializeRun => {To(LoadContext), To(Fail)}
    case LoadContext => {To(PlanOrReplan), To(Fail)}
    case PlanOrReplan => {To(GuardDecision)}
    case GuardDecision => {To(ExecuteTool), To(RequestInput), To(SynthesizeAnswer), To(Fail)}
    case ExecuteTool => {To(ObserveResult), To(Fail)}
    case ObserveResult => {To(EvaluateProgress), To(Fail)}
    case EvaluateProgress => {To(PlanOrReplan), To(RequestInput), To(SynthesizeAnswer), To(Fail)}
    case RequestInput => {To(PlanOrReplan)}
    case SynthesizeAnswer => {To(ValidateAnswer), To(Fail)}
    case ValidateAnswer => {To(PersistTurn), To(Fail)}
    case PersistTurn => {To(FinalizeRun), To(Fail)}
    case FinalizeRun => {To(Fail), End}
    case Fail => {End}
  }

  /** Routers that read the route alone, and nodes whose way out does not depend on it. */
  predicate ReadsRoute(from: Node) {
    from.GuardDecision? || from.EvaluateProgress?
  }

  predicate HasOneWay(from: Node) {
    from.PlanOrReplan? || from.RequestInput? || from.Fail?
  }

  /**
   * Routing follows the edges: a node with one way out takes it; after the guard and the evaluation the
   * route decides; after the others an error leads to `fail`, and without one the route must be the only
   * other edge. Any other route is refused.
   */
  lemma EdgeFollowsGraph(from: Node, failed: bool, next: Option<Node>, to: Target)
    ensures Edge(from, failed, next) == Returned(to) <==>
            && to in Targets(from)
            && if HasOneWay(from) then true
               else if ReadsRoute(from) then next.Some? && to == To(next.value)
               else if failed then to == To(Fail)
               else to != To(Fail) && (to.To? ==> next == Some(to.node))
  {
  }

  function Towards(r: Outcome<Node, RoutingError>): Outcome<Target, RoutingError> {
    match r
    case Raised(e) => Raised(e)
    case Returned(n) => Returned(To(n))
  }
}
