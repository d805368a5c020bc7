/**
 * The public event stream of a graph run: the translation of the graph's stream into numbered
 * events, and the proof that a run's events are what the run-event log accepts.
 */
module GraphStream {
  import opened Outcomes
  import opened AgentModels
  import opened AgentRouting
  import opened AgentGuard
  import opened AgentReducers
  import opened AnalysisGraph
  import Log = RunEventStore

  // ---- translation ----

  datatype StreamError = MultipleTerminalPayloads | NoTerminalResponse

  /** The events so far, the terminal payload that waits for its response, and the error that stopped the stream. */
  datatype Translation = Translation(events: seq<AgentEvent>, pending: Option<EventData>, error: Option<StreamError>)

  const EMPTY := Translation([], None, None)

  function Publish(
      runId: string, start: nat, t: Translation, d: EventData, response: Option<AgentResponse>): Translation
  {
    t.(events := t.events + [AgentEvent(runId, start + |t.events|, d, response)])
  }

  function Feed(runId: string, start: nat, t: Translation, item: Item): Translation {
    if t.error.Some? then t
    else
      match item
      case Custom(d) =>
        if !IsTerminal(d) then Publish(runId, start, t, d, None)
        else if t.pending.Some? then t.(error := Some(MultipleTerminalPayloads))
        else t.(pending := Some(d))
      case Interrupted(request) => Publish(runId, start, t, RunWaiting(request), None)
      case Updated(response) =>
        if t.pending.Some? && response.Some? then Publish(runId, start, t, t.pending.value, response).(pending := None)
        else t
  }

  function FeedAll(runId: string, start: nat, t: Translation, items: seq<Item>): Translation {
    if items == [] then t
    else Feed(runId, start, FeedAll(runId, start, t, items[..|items| - 1]), items[|items| - 1])
  }

  /** A terminal payload that never got its response is an error at the end of the stream. */
  function ClosingError(t: Translation): Option<StreamError> {
    if t.error.Some? then t.error else if t.pending.Some? then Some(NoTerminalResponse) else None
  }

  method AStreamEvents(runId: string, startSequence: nat, items: seq<Item>)
    returns (events: seq<AgentEvent>, error: Option<StreamError>)
    ensures events == FeedAll(runId, startSequence, EMPTY, items).events
    ensures error == ClosingError(FeedAll(runId, startSequence, EMPTY, items))
  {
    events := [];
    var sequence := startSequence;
    var pending: Option<EventData> := None;
    for i := 0 to |items|
      invariant sequence == startSequence + |events|
      invariant FeedAll(runId, startSequence, EMPTY, items[..i]) == Translation(events, pending, None)
    {
      assert items[..i + 1] == items[..i] + [items[i]];
      match items[i] {
        case Custom(d) =>
          if IsTerminal(d) {
            if pending.Some? {
              FeedStops(runId, startSequence, EMPTY, items, i + 1);
              return events, Some(MultipleTerminalPayloads);
            }
            pending := Some(d);
          } else {
            events := events + [AgentEvent(runId, sequence, d, None)];
            sequence := sequence + 1;
          }
        case Interrupted(request) =>
          events := events + [AgentEvent(runId, sequence, RunWaiting(request), None)];
          sequence := sequence + 1;
        case Updated(response) =>
          if pending.Some? && response.Some? {
            events := events + [AgentEvent(runId, sequence, pending.value, response)];
            sequence := sequence + 1;
            pending := None;
          }
      }
    }
    assert items[..|items|] == items;
    error := if pending.Some? then Some(NoTerminalResponse) else None;
  }

  lemma {:induction false} FeedStops(runId: string, start: nat, t: Translation, items: seq<Item>, i: nat)
    requires i <= |items| && FeedAll(runId, start, t, items[..i]).error.Some?
    ensures FeedAll(runId, start, t, items) == FeedAll(runId, start, t, items[..i])
    decreases |items|
  {
    if i == |items| {
      assert items[..i] == items;
    } else {
      var init := items[..|items| - 1];
      assert init[..i] == items[..i];
      FeedStops(runId, start, t, init, i);
    }
  }

  lemma {:induction false} FeedConcat(runId: string, start: nat, t: Translation, a: seq<Item>, b: seq<Item>)
    ensures FeedAll(runId, start, t, a + b) == FeedAll(runId, start, FeedAll(runId, start, t, a), b)
    decreases |b|
  {
    if b == [] {
      assert a + b == a;
    } else {
      var all := a + b;
      assert all[..|all| - 1] == a + b[..|b| - 1];
      FeedConcat(runId, start, t, a, b[..|b| - 1]);
    }
  }

  /** A stream that starts at the next sequence goes on exactly where the one before it closed. */
  lemma {:induction false} RestartContinues(runId: string, t: Translation, items: seq<Item>)
    requires t.pending.None? && t.error.None?
    ensures var whole, leg := FeedAll(runId, 0, t, items), FeedAll(runId, |t.events|, EMPTY, items);
            whole.events == t.events + leg.events && whole.pending == leg.pending && whole.error == leg.error
  {
    if items != [] {
      RestartContinues(runId, t, items[..|items| - 1]);
    }
  }

  predicate IsTerminalItem(item: Item) {
    item.Custom? && IsTerminal(item.data)
  }

  predicate Answers(item: Item) {
    item.Updated? && item.response.Some?
  }

  /** A terminal payload that no response has followed. */
  ghost predicate Unanswered(items: seq<Item>, i: int) {
    0 <= i < |items| && IsTerminalItem(items[i]) && forall j | i < j < |items| :: !Answers(items[j])
  }

  /** A second terminal payload comes while the first waits. */
  ghost predicate Doubled(items: seq<Item>, j: int) {
    0 <= j < |items| && IsTerminalItem(items[j]) && exists i :: Unanswered(items[..j], i)
  }

  lemma UnansweredSnoc(init: seq<Item>, item: Item, i: int)
    ensures Unanswered(init + [item], i) <==>
            (Unanswered(init, i) && !Answers(item)) || (i == |init| && IsTerminalItem(item))
  {
    var items := init + [item];
    assert items[|init|] == item && forall j | 0 <= j < |init| :: items[j] == init[j];
  }

  lemma DoubledSnoc(init: seq<Item>, item: Item, j: int)
    ensures Doubled(init + [item], j) <==>
            Doubled(init, j) || (j == |init| && IsTerminalItem(item) && exists i :: Unanswered(init, i))
  {
    var items := init + [item];
    assert items[|init|] == item && items[..|init|] == init;
    if 0 <= j < |init| {
      assert items[j] == init[j] && items[..j] == init[..j];
    }
  }

  lemma {:induction false} FeedWaits(runId: string, start: nat, items: seq<Item>)
    ensures var t := FeedAll(runId, start, EMPTY, items);
            && (t.error.Some? <==> exists j :: Doubled(items, j))
            && (t.error.Some? ==> t.error.value.MultipleTerminalPayloads?)
            && (t.error.None? ==> (t.pending.Some? <==> exists i :: Unanswered(items, i)))
  {
    if items != [] {
      var n := |items| - 1;
      var init, item := items[..n], items[n];
      assert items == init + [item];
      FeedWaits(runId, start, init);
      forall j ensures Doubled(items, j) <==>
          Doubled(init, j) || (j == n && IsTerminalItem(item) && exists i :: Unanswered(init, i)) {
        DoubledSnoc(init, item, j);
      }
      forall i ensures Unanswered(items, i) <==>
          (Unanswered(init, i) && !Answers(item)) || (i == n && IsTerminalItem(item)) {
        UnansweredSnoc(init, item, i);
      }
      hide Doubled, Unanswered, Publish;
      if IsTerminalItem(item) {
        assert Unanswered(items, n);
        if i :| Unanswered(init, i) {
          assert Doubled(items, n);
        }
      }
      if i :| Unanswered(init, i) && !Answers(item) {
        assert Unanswered(items, i);
      }
      if j :| Doubled(init, j) {
        assert Doubled(items, j);
      }
    }
  }

  /**
   * When a stream ends in an error: exactly when a second terminal payload comes while one waits for its
   * response, or when one still waits at the end.
   */
  lemma StreamErrorIff(runId: string, start: nat, items: seq<Item>)
    ensures var error := ClosingError(FeedAll(runId, start, EMPTY, items));
            && (error == Some(MultipleTerminalPayloads) <==> exists j :: Doubled(items, j))
            && (error == Some(NoTerminalResponse) <==>
                  !(exists j :: Doubled(items, j)) && exists i :: Unanswered(items, i))
  {
    FeedWaits(runId, start, items);
  }

  // ---- the stream of a whole run ----

  function MoveItems(setup: Setup, c: Config, m: Move): seq<Item> {
    if Enabled(c, m) then ItemsOf(TurnOf(setup, c, m)) else []
  }

  function RunItems(setup: Setup, moves: seq<Move>): seq<Item> {
    if moves == [] then []
    else RunItems(setup, moves[..|moves| - 1]) + MoveItems(setup, Reach(setup, moves[..|moves| - 1]),
        moves[|moves| - 1])
  }

  function RunTranslation(setup: Setup, moves: seq<Move>): Translation {
    FeedAll(setup.runId, 0, EMPTY, RunItems(setup, moves))
  }

  /** The clock never goes back and a cancellation is never withdrawn. */
  predicate Later(a: Env, b: Env) {
    a.now <= b.now && (a.cancelled ==> b.cancelled)
  }

  predicate Monotone(moves: seq<Move>) {
    forall i: nat | i + 1 < |moves| :: Later(moves[i].env, moves[i + 1].env)
  }

  predicate ResumesAccepted(moves: seq<Move>) {
    forall m | m in moves && m.Resume? :: ResumeMessage(m.value).Returned?
  }

  /** The checks of the first node pass: the request fits its authority and the run is not cancelled yet. */
  predicate InitOk(setup: Setup, env: Env) {
    && setup.requestMode == setup.authority.mode
    && (setup.requestPins.Some? ==> setup.requestPins.value == setup.authority.pins)
    && !env.cancelled
  }

  // ---- what one turn says ----

  /** An event that neither closes nor reopens a stream. */
  predicate Plain(d: EventData) {
    !IsTerminal(d) && !d.RunWaiting? && !d.RunResumed?
  }

  lemma TurnIsPlain(setup: Setup, node: Node, s: State, env: Env, resume: Option<ResumeValue>)
    requires !node.RequestInput? && !node.FinalizeRun? && !node.Fail?
    ensures var t := RunNode(setup, node, s, env, resume);
            !t.Pause? && forall d | d in t.payloads :: Plain(d)
  {
    hide EnsureNodeEntry, Consume, GuardPlannerDecision, Plan, Observe, Execute;
    match node
    case ObserveResult => ObserveIsPlain(s, env);
    case PlanOrReplan => PlanIsPlain(setup, s, env);
    case ExecuteTool => ExecuteIsPlain(setup, s, env);
    case _ =>
  }

  lemma ObserveIsPlain(s: State, env: Env)
    ensures !Observe(s, env).Pause? && forall d | d in Observe(s, env).payloads :: Plain(d)
  {
  }

  lemma PlanIsPlain(setup: Setup, s: State, env: Env)
    ensures Plan(setup, s, env).Finished? && forall d | d in Plan(setup, s, env).payloads :: Plain(d)
    ensures Blocked(s, env).Some? ==> Plan(setup, s, env) == Failed(s, Coded(Blocked(s, env).value), [])
  {
  }

  lemma ExecuteIsPlain(setup: Setup, s: State, env: Env)
    ensures Execute(setup, s, env).Finished? && forall d | d in Execute(setup, s, env).payloads :: Plain(d)
  {
  }

  // ---- a translation the log accepts ----

  /** Nothing pending, no error, and events of this run that the log accepts and leaves in this status. */
  ghost predicate Good(runId: string, t: Translation, status: Log.RunStatus) {
    && t.error.None? && t.pending.None? && t.events != []
    && Log.Accepted(t.events) && Log.StatusOf(t.events) == status
    && (forall e | e in t.events :: e.runId == runId && ValidEvent(e))
  }

  lemma PublishGood(runId: string, t: Translation, status: Log.RunStatus, d: EventData, response: Option<AgentResponse>)
    requires Good(runId, t, status) && Log.IsActive(status)
    requires ValidEvent(AgentEvent(runId, |t.events|, d, response))
    requires status.Waiting? ==> d.RunResumed? || d.RunFailed?
    requires d.RunResumed? ==> status.Waiting?
    ensures Good(runId, Publish(runId, 0, t, d, response), Log.NextStatus(status, d))
  {
    Log.AcceptedSnoc(t.events, AgentEvent(runId, |t.events|, d, response));
  }

  lemma {:induction false} FeedPlain(runId: string, t: Translation, payloads: seq<EventData>)
    requires Good(runId, t, Log.Running) && forall d | d in payloads :: Plain(d)
    ensures Good(runId, FeedAll(runId, 0, t, Customs(payloads)), Log.Running)
  {
    if payloads == [] {
      assert Customs(payloads) == [];
    } else {
      var init, d := payloads[..|payloads| - 1], payloads[|payloads| - 1];
      assert Customs(payloads)[..|payloads| - 1] == Customs(init);
      assert d in payloads && forall x | x in init :: x in payloads;
      FeedPlain(runId, t, init);
      var before := FeedAll(runId, 0, t, Customs(init));
      PublishGood(runId, before, Log.Running, d, None);
      assert Feed(runId, 0, before, Custom(d)) == Publish(runId, 0, before, d, None);
    }
  }

  lemma FeedOne(runId: string, start: nat, t: Translation, a: Item)
    ensures FeedAll(runId, start, t, [a]) == Feed(runId, start, t, a)
  {
    assert [a][..0] == [];
  }

  lemma FeedTwo(runId: string, start: nat, t: Translation, a: Item, b: Item)
    ensures FeedAll(runId, start, t, [a, b]) == Feed(runId, start, Feed(runId, start, t, a), b)
  {
    assert [a, b][..1] == [a];
    FeedOne(runId, start, t, a);
  }

  lemma FeedUpdate(runId: string, t: Translation, items: seq<Item>, response: Option<AgentResponse>)
    requires FeedAll(runId, 0, t, items).pending.None?
    ensures FeedAll(runId, 0, t, items + [Updated(response)]) == FeedAll(runId, 0, t, items)
  {
    FeedConcat(runId, 0, t, items, [Updated(response)]);
    FeedOne(runId, 0, FeedAll(runId, 0, t, items), Updated(response));
  }

  lemma FeedTerminal(runId: string, t: Translation, status: Log.RunStatus, d: EventData, response: AgentResponse)
    requires Good(runId, t, status) && Log.IsActive(status) && (status.Waiting? ==> d.RunFailed?)
    requires IsTerminal(d) && ValidEvent(AgentEvent(runId, |t.events|, d, Some(response)))
    ensures Good(runId, FeedAll(runId, 0, t, Customs([d]) + [Updated(Some(response))]), Log.NextStatus(status, d))
  {
    assert Customs([d]) + [Updated(Some(response))] == [Custom(d), Updated(Some(response))];
    FeedTwo(runId, 0, t, Custom(d), Updated(Some(response)));
    PublishGood(runId, t, status, d, Some(response));
    var held := t.(pending := Some(d));
    assert Feed(runId, 0, t, Custom(d)) == held;
    assert Publish(runId, 0, held, d, Some(response)).(pending := None) == Publish(runId, 0, t, d, Some(response));
  }

  // ---- the invariant: what has been said at each point of a run ----

  function EndStatus(s: AgentStatus): Log.RunStatus {
    match s
    case AgentCompleted => Log.Completed
    case AgentCancelled => Log.Cancelled
    case _ => Log.Failed
  }

  /**
   * Between supersteps the log is running while the run stands before a node, waiting while it is
   * paused and closed when it has ended. A failed resume leaves it waiting on the way to `fail`; the
   * planner is then on that way only because the run was stopped, and stays stopped.
   */
  ghost predicate Speaks(runId: string, c: Config, t: Translation, last: Env) {
    match c
    case At(node, s) =>
      if node.InitializeRun? then t == EMPTY
      else if s.error.None? then Good(runId, t, Log.Running)
      else
        || Good(runId, t, Log.Running)
        || (Good(runId, t, Log.Waiting) && (node.PlanOrReplan? ==> Blocked(s, last).Some?))
    case Paused(_) => Good(runId, t, Log.Waiting)
    case Ended(s) => Good(runId, t, EndStatus(s.status))
    case Crashed(_) => Good(runId, t, Log.Running)
  }

  lemma InitializeSpeaks(setup: Setup, env: Env)
    requires InitOk(setup, env)
    ensures var turn := Initialize(setup, INITIAL, env);
            Speaks(setup.runId, After(At(InitializeRun, INITIAL), turn), FeedAll(setup.runId, 0, EMPTY, ItemsOf(turn)),
                env)
  {
    var turn := Initialize(setup, INITIAL, env);
    assert ItemsOf(turn) == [Custom(RunStarted), Updated(None)];
    FeedTwo(setup.runId, 0, EMPTY, Custom(RunStarted), Updated(None));
    var first := AgentEvent(setup.runId, 0, RunStarted, None);
    Log.AcceptedSnoc([], first);
    assert [] + [first] == [first];
    var t := FeedAll(setup.runId, 0, EMPTY, ItemsOf(turn));
    assert t.events == [first];
    assert Log.StatusOf([first]) == Log.Running by { assert [first][..0] == []; }
  }

  // A node that says nothing special, entered while the log is running.
  lemma PlainSpeaks(setup: Setup, node: Node, s: State, env: Env, t: Translation)
    requires Ready(setup, node, s) && EnvValid(env) && Good(setup.runId, t, Log.Running)
    requires !node.InitializeRun? && !node.RequestInput? && !node.FinalizeRun? && !node.Fail?
    ensures var turn := RunNode(setup, node, s, env, None);
            Speaks(setup.runId, After(At(node, s), turn), FeedAll(setup.runId, 0, t, ItemsOf(turn)), env)
  {
    NodeOk(setup, node, s, env, None);
    TurnIsPlain(setup, node, s, env, None);
    var turn := RunNode(setup, node, s, env, None);
    FeedPlain(setup.runId, t, turn.payloads);
    if turn.Finished? {
      FeedUpdate(setup.runId, t, Customs(turn.payloads), turn.state.response);
      LandsAtNode(node, turn.state);
    }
  }

  lemma LandsAtNode(node: Node, s: State)
    requires !node.FinalizeRun? && !node.Fail?
    ensures !Landed(node, s).Ended? && !Landed(node, s).Paused?
    ensures Landed(node, s).At? ==> !Landed(node, s).node.InitializeRun?
  {
  }

  // On the way to `fail` after a resume that was refused: nothing is said until `fail`.
  lemma SilentSpeaks(setup: Setup, node: Node, s: State, env: Env, t: Translation)
    requires Ready(setup, node, s) && s.error.Some? && Good(setup.runId, t, Log.Waiting)
    requires node.GuardDecision? || (node.PlanOrReplan? && Blocked(s, env).Some?)
    ensures var turn := RunNode(setup, node, s, env, None);
            Speaks(setup.runId, After(At(node, s), turn), FeedAll(setup.runId, 0, t, ItemsOf(turn)), env)
  {
    if node.PlanOrReplan? {
      PlanIsPlain(setup, s, env);
    }
    var turn := RunNode(setup, node, s, env, None);
    assert turn.payloads == [];
    assert ItemsOf(turn) == [] + [Updated(turn.state.response)];
    FeedUpdate(setup.runId, t, [], turn.state.response);
  }

  lemma RequestSpeaks(setup: Setup, s: State, env: Env, t: Translation)
    requires Ready(setup, RequestInput, s) && Good(setup.runId, t, Log.Running)
    ensures var turn := Request(setup, s, env, None);
            Speaks(setup.runId, After(At(RequestInput, s), turn), FeedAll(setup.runId, 0, t, ItemsOf(turn)), env)
  {
    hide UniqueIds;
    var turn := Request(setup, s, env, None);
    if turn.Pause? {
      FeedOne(setup.runId, 0, t, Interrupted(turn.request));
      PublishGood(setup.runId, t, Log.Running, RunWaiting(turn.request), None);
    } else {
      assert ItemsOf(turn) == [] + [Updated(turn.state.response)];
      FeedUpdate(setup.runId, t, [], turn.state.response);
    }
  }

  // What an accepted answer makes the input node say and leave behind.
  lemma ResumeSays(setup: Setup, s: State, env: Env, value: ResumeValue)
    requires Ready(setup, RequestInput, s) && ResumeMessage(value).Returned?
    ensures var turn := Request(setup, s, env, Some(value));
            && turn.Finished? && After(Paused(s), turn) == At(PlanOrReplan, turn.state)
            && if Blocked(s, env).Some? then
                 && turn.state.error.Some? && Blocked(turn.state, env) == Blocked(s, env)
                 && ItemsOf(turn) == [] + [Updated(turn.state.response)]
               else
                 && turn.state.error.None?
                 && ItemsOf(turn) == [Custom(RunResumed(s.waitingRequest.value.interruptId)), Updated(None)]
  {
    hide UniqueIds, BudgetChain, ResumeMessage, FingerprintOf;
  }

  lemma ResumeSpeaks(setup: Setup, s: State, env: Env, value: ResumeValue, t: Translation)
    requires Ready(setup, RequestInput, s) && Good(setup.runId, t, Log.Waiting) && ResumeMessage(value).Returned?
    ensures var turn := Request(setup, s, env, Some(value));
            Speaks(setup.runId, After(Paused(s), turn), FeedAll(setup.runId, 0, t, ItemsOf(turn)), env)
  {
    ResumeSays(setup, s, env, value);
    var turn := Request(setup, s, env, Some(value));
    hide Request, ItemsOf, After, Ready, Blocked, ResumeMessage;
    if Blocked(s, env).Some? {
      assert FeedAll(setup.runId, 0, t, []) == t;
      hide FeedAll;
      FeedUpdate(setup.runId, t, [], turn.state.response);
    } else {
      var resumed := RunResumed(s.waitingRequest.value.interruptId);
      hide FeedAll;
      FeedTwo(setup.runId, 0, t, Custom(resumed), Updated(None));
      PublishGood(setup.runId, t, Log.Waiting, resumed, None);
    }
  }

  // What the last node says and leaves behind.
  lemma FinalizeSays(s: State, env: Env)
    ensures var end := Finalize(s, env);
            if Blocked(s, env).Some? then
              && ItemsOf(end) == [] + [Updated(end.state.response)]
              && After(At(FinalizeRun, s), end) == At(Fail, end.state) && end.state.error.Some?
            else
              && ItemsOf(end) == Customs([RunCompleted]) + [Updated(end.state.response)]
              && end.state.response.Some? && end.state.response.value.ok && end.state.status.AgentCompleted?
              && (s.error.None? ==> After(At(FinalizeRun, s), end) == Ended(end.state))
  {
  }

  lemma FinalizeSpeaks(setup: Setup, s: State, env: Env, t: Translation)
    requires s.error.None? && Good(setup.runId, t, Log.Running)
    ensures var turn := Finalize(s, env);
            Speaks(setup.runId, After(At(FinalizeRun, s), turn), FeedAll(setup.runId, 0, t, ItemsOf(turn)), env)
  {
    hide Finalize, FeedAll;
    FinalizeSays(s, env);
    var turn := Finalize(s, env);
    if Blocked(s, env).Some? {
      assert FeedAll(setup.runId, 0, t, []) == t by { FeedNothing(setup.runId, t); }
      FeedUpdate(setup.runId, t, [], turn.state.response);
    } else {
      FeedTerminal(setup.runId, t, Log.Running, RunCompleted, turn.state.response.value);
    }
  }

  lemma FeedNothing(runId: string, t: Translation)
    ensures FeedAll(runId, 0, t, []) == t
  {
  }

  // What the failing node says and leaves behind.
  lemma FailRunSays(s: State)
    ensures var end := FailRun(s);
            && end.state.error.Some? && end.payloads == [RunFailed(end.state.error.value.code)]
            && ItemsOf(end) == Customs(end.payloads) + [Updated(end.state.response)]
            && end.state.response.Some? && !end.state.response.value.ok
            && end.state.response.value.error == end.state.error
            && After(At(Fail, s), end) == Ended(end.state)
            && EndStatus(end.state.status)
               == (if end.state.error.value.code.CANCELLED? then Log.Cancelled else Log.Failed)
  {
  }

  lemma FailSpeaks(setup: Setup, s: State, env: Env, t: Translation, status: Log.RunStatus)
    requires Good(setup.runId, t, status) && Log.IsActive(status)
    ensures Speaks(setup.runId, After(At(Fail, s), FailRun(s)), FeedAll(setup.runId, 0, t, ItemsOf(FailRun(s))), env)
  {
    hide FailRun, FeedAll;
    FailRunSays(s);
    FeedTerminal(setup.runId, t, status, FailRun(s).payloads[0], FailRun(s).state.response.value);
  }

  lemma FailingSpeaks(setup: Setup, s: State, env: Env, t: Translation, last: Env)
    requires Ready(setup, Fail, s) && Speaks(setup.runId, At(Fail, s), t, last)
    ensures Speaks(setup.runId, After(At(Fail, s), FailRun(s)), FeedAll(setup.runId, 0, t, ItemsOf(FailRun(s))), env)
  {
    hide FailRun, FeedAll, ItemsOf, After;
    FailSpeaks(setup, s, env, t, Log.StatusOf(t.events));
  }

  lemma MoveSpeaks(setup: Setup, c: Config, m: Move, t: Translation, last: Env)
    requires Fits(setup, c) && EnvValid(m.env) && Enabled(c, m) && Speaks(setup.runId, c, t, last)
    requires if NodeOf(c).InitializeRun? then InitOk(setup, m.env) else Later(last, m.env)
    requires m.Resume? ==> ResumeMessage(m.value).Returned?
    ensures Speaks(setup.runId, Next(setup, c, m), FeedAll(setup.runId, 0, t, MoveItems(setup, c, m)), m.env)
  {
    hide Initialize, Load, Plan, Guard, Execute, Observe, Evaluate, Request, Synthesize, Validate, Persist, Finalize,
         FailRun, FeedAll;
    hide Good, EnvValid, Live, BudgetChain, InitOk, ItemsOf, After, ResumeMessage;
    if c.Paused? {
      ResumeSpeaks(setup, c.state, m.env, m.value, t);
    } else if c.node.InitializeRun? {
      InitializeSpeaks(setup, m.env);
    } else if c.node.RequestInput? {
      RequestSpeaks(setup, c.state, m.env, t);
    } else if c.node.FinalizeRun? {
      FinalizeSpeaks(setup, c.state, m.env, t);
    } else if c.node.Fail? {
      FailingSpeaks(setup, c.state, m.env, t, last);
    } else if Good(setup.runId, t, Log.Running) {
      PlainSpeaks(setup, c.node, c.state, m.env, t);
    } else {
      SilentSpeaks(setup, c.node, c.state, m.env, t);
    }
  }

  // ---- whole runs ----

  /** A run: every move fits the configuration it is made in, over any number of waits and resumes. */
  ghost predicate IsRun(setup: Setup, moves: seq<Move>) {
    && MovesValid(moves)
    && (forall i | 0 <= i < |moves| :: Enabled(Reach(setup, moves[..i]), moves[i]))
  }

  ghost predicate Proper(setup: Setup, moves: seq<Move>) {
    && moves != [] && IsRun(setup, moves) && Monotone(moves) && ResumesAccepted(moves) && InitOk(setup, moves[0].env)
  }

  lemma ProperFits(setup: Setup, moves: seq<Move>)
    requires Proper(setup, moves)
    ensures Fits(setup, Reach(setup, moves))
  {
    ReachFits(setup, moves);
  }

  lemma ProperPrefix(setup: Setup, moves: seq<Move>)
    requires Proper(setup, moves) && |moves| > 1
    ensures Proper(setup, moves[..|moves| - 1])
    ensures Later(moves[|moves| - 2].env, moves[|moves| - 1].env)
  {
    hide Reach;
    var init := moves[..|moves| - 1];
    var k: nat := |moves| - 2;
    assert Later(moves[k].env, moves[k + 1].env);
    forall i | 0 <= i < |init| ensures Enabled(Reach(setup, init[..i]), init[i]) {
      assert init[..i] == moves[..i];
    }
    forall i: nat | i + 1 < |init| ensures Later(init[i].env, init[i + 1].env) {
      assert Later(moves[i].env, moves[i + 1].env);
    }
    assert forall m | m in init :: m in moves;
  }

  lemma TranslationSnoc(setup: Setup, moves: seq<Move>)
    requires moves != []
    ensures RunTranslation(setup, moves)
            == FeedAll(setup.runId, 0, RunTranslation(setup, moves[..|moves| - 1]),
                       MoveItems(setup, Reach(setup, moves[..|moves| - 1]), moves[|moves| - 1]))
  {
    var init := moves[..|moves| - 1];
    FeedConcat(setup.runId, 0, EMPTY, RunItems(setup, init), MoveItems(setup, Reach(setup, init), moves[|moves| - 1]));
  }

  // Only the very first node execution is the initial one.
  lemma {:induction false} InitializedOnce(setup: Setup, moves: seq<Move>)
    requires IsRun(setup, moves) && moves != []
    ensures Reach(setup, moves).At? ==> !Reach(setup, moves).node.InitializeRun?
  {
    var init := moves[..|moves| - 1];
    assert moves == init + [moves[|moves| - 1]];
    assert Enabled(Reach(setup, init), moves[|moves| - 1]);
    Snoc(setup, init, moves[|moves| - 1]);
    hide Reach, Next, IsRun;
    NeverLandsAtStart(setup, Reach(setup, init), moves[|moves| - 1]);
  }

  lemma NeverLandsAtStart(setup: Setup, c: Config, m: Move)
    requires Enabled(c, m)
    ensures Next(setup, c, m).At? ==> !Next(setup, c, m).node.InitializeRun?
  {
    if TurnOf(setup, c, m).Finished? {
      NoEdgeToStart(NodeOf(c), TurnOf(setup, c, m).state);
    }
  }

  lemma NoEdgeToStart(node: Node, s: State)
    ensures Landed(node, s).At? ==> !Landed(node, s).node.InitializeRun?
  {
  }

  lemma {:induction false} RunSpeaks(setup: Setup, moves: seq<Move>)
    requires Proper(setup, moves)
    ensures Speaks(setup.runId, Reach(setup, moves), RunTranslation(setup, moves), moves[|moves| - 1].env)
  {
    var k := |moves| - 1;
    var init, m := moves[..k], moves[k];
    assert m in moves && forall x | x in init :: x in moves;
    assert Enabled(Reach(setup, init), m);
    TranslationSnoc(setup, moves);
    ReachFits(setup, init);
    if init == [] {
      assert RunTranslation(setup, init) == EMPTY;
      MoveSpeaks(setup, At(InitializeRun, INITIAL), m, EMPTY, m.env);
    } else {
      ProperPrefix(setup, moves);
      RunSpeaks(setup, init);
      InitializedOnce(setup, init);
      assert init[|init| - 1] == moves[k - 1];
      MoveSpeaks(setup, Reach(setup, init), m, RunTranslation(setup, init), moves[k - 1].env);
    }
  }

  /** The event the runtime adds when the graph stopped without closing its stream. */
  function RuntimeFailure(runId: string, sequence: nat): AgentEvent {
    AgentEvent(runId, sequence, RunFailed(INTERNAL_ERROR),
               Some(AgentResponse(false, Some(AgentError(INTERNAL_ERROR, false)), None, [], [], [])))
  }

  function Published(setup: Setup, moves: seq<Move>): seq<AgentEvent> {
    var events := RunTranslation(setup, moves).events;
    if Reach(setup, moves).Crashed? then events + [RuntimeFailure(setup.runId, |events|)] else events
  }

  /**
   * The events of a run, through any number of waits and resumes, are accepted one by one by the
   * run-event log, and the log's status says where the run stands.
   */
  lemma StreamIsAccepted(setup: Setup, moves: seq<Move>)
    requires Proper(setup, moves)
    ensures var events := Published(setup, moves);
            var c := Reach(setup, moves);
            && ClosingError(RunTranslation(setup, moves)).None?
            && events != [] && Log.Accepted(events)
            && (forall e | e in events :: e.runId == setup.runId && ValidEvent(e))
            && match c
               case At(_, _) => Log.IsActive(Log.StatusOf(events))
               case Paused(_) => Log.StatusOf(events) == Log.Waiting
               case Ended(s) => Log.StatusOf(events) == EndStatus(s.status)
               case Crashed(_) => Log.StatusOf(events) == Log.Failed
  {
    hide RunTranslation, IsRun, Reach, Monotone, ResumesAccepted, InitOk, Blocked, EndStatus, ValidEvent, Log.Accepted;
    RunSpeaks(setup, moves);
    InitializedOnce(setup, moves);
    var t := RunTranslation(setup, moves);
    if Reach(setup, moves).Crashed? {
      FailureIsAccepted(setup.runId, t);
    }
  }

  lemma FailureIsAccepted(runId: string, t: Translation)
    requires Good(runId, t, Log.Running)
    ensures var failure := RuntimeFailure(runId, |t.events|);
            && Log.Accepted(t.events + [failure]) && Log.StatusOf(t.events + [failure]) == Log.Failed
            && failure.runId == runId && ValidEvent(failure)
  {
    Log.AcceptedSnoc(t.events, RuntimeFailure(runId, |t.events|));
  }

  /**
   * A run that has ended or crashed has exactly one terminal event, its last, and completed exactly if
   * that says ok.
   */
  lemma OneTerminalEvent(setup: Setup, moves: seq<Move>, i: nat)
    requires Proper(setup, moves) && i < |Published(setup, moves)|
    ensures var events := Published(setup, moves);
            var c := Reach(setup, moves);
            && (IsTerminal(events[i].data) <==> (c.Ended? || c.Crashed?) && i == |events| - 1)
            && (events[i].data.RunCompleted? <==> c.Ended? && c.state.status.AgentCompleted? && i == |events| - 1)
            && (IsTerminal(events[i].data) ==>
                  events[i].response.Some? && events[i].response.value.ok == events[i].data.RunCompleted?)
  {
    hide Published, Proper, Reach;
    StreamIsAccepted(setup, moves);
    var events := Published(setup, moves);
    Log.AcceptedIffShape(events);
    Log.StatusIsLast(events);
    assert events[i] in events;
    ProperFits(setup, moves);
    if i + 1 < |events| {
      assert Log.PairFits(events, i);
    }
  }

  /** The store takes every event of a run's stream, whatever other runs it holds. */
  lemma StreamIsStored(
    setup: Setup, moves: seq<Move>, log: Log.Log, p: Log.Principal, conversationId: Option<string>, n: nat)
    requires Proper(setup, moves) && n < |Published(setup, moves)|
    requires Log.LogValid(log) && Log.KeyOf(p, setup.runId) !in log
    requires Log.Conversation(conversationId).Some?
             ==> !Log.ConversationBusy(log, p, Log.Conversation(conversationId).value)
    ensures var events := Published(setup, moves);
            var before := Log.AfterCalls(log, p, events, conversationId, n);
            Log.AppendTo(before, p, events[n], if n == 0 then conversationId else None).1.Stored?
  {
    StreamIsAccepted(setup, moves);
    Log.AcceptedStreamIsStored(log, p, setup.runId, Published(setup, moves), conversationId, n);
  }

  // ---- legs ----

  function LegItems(setup: Setup, before: seq<Move>, leg: seq<Move>): seq<Item> {
    if leg == [] then []
    else LegItems(setup, before, leg[..|leg| - 1]) + MoveItems(setup, Reach(setup, before + leg[..|leg| - 1]),
        leg[|leg| - 1])
  }

  lemma {:induction false} ItemsByLegs(setup: Setup, before: seq<Move>, leg: seq<Move>)
    ensures RunItems(setup, before + leg) == RunItems(setup, before) + LegItems(setup, before, leg)
    decreases |leg|
  {
    if leg == [] {
      assert before + leg == before;
    } else {
      var init, m := leg[..|leg| - 1], leg[|leg| - 1];
      assert before + leg == (before + init) + [m];
      RunItemsSnoc(setup, before + init, m);
      ItemsByLegs(setup, before, init);
      Associates(RunItems(setup, before), LegItems(setup, before, init),
          MoveItems(setup, Reach(setup, before + init), m));
    }
  }

  lemma RunItemsSnoc(setup: Setup, moves: seq<Move>, m: Move)
    ensures RunItems(setup, moves + [m]) == RunItems(setup, moves) + MoveItems(setup, Reach(setup, moves), m)
  {
    assert (moves + [m])[..|moves|] == moves;
  }

  lemma Associates(a: seq<Item>, b: seq<Item>, c: seq<Item>)
    ensures (a + b) + c == a + (b + c)
  {
  }

  /**
   * A resumed stream translated on its own, numbered from the next sequence, adds exactly the events
   * the whole run would have had: cutting a run at its waits changes nothing.
   */
  lemma LegsAreOneStream(setup: Setup, before: seq<Move>, leg: seq<Move>)
    requires Proper(setup, before) && Reach(setup, before).Paused?
    ensures var events := RunTranslation(setup, before).events;
            RunTranslation(setup, before + leg).events
            == events + FeedAll(setup.runId, |events|, EMPTY, LegItems(setup, before, leg)).events
  {
    RunSpeaks(setup, before);
    ItemsByLegs(setup, before, leg);
    FeedConcat(setup.runId, 0, EMPTY, RunItems(setup, before), LegItems(setup, before, leg));
    RestartContinues(setup.runId, RunTranslation(setup, before), LegItems(setup, before, leg));
  }

  // ---- the two streams the log does not accept ----

  /**
   * When the first node refuses the request, the run's one event is `run_failed` at sequence 0, and the
   * log rejects it.
   */
  lemma InitFailureIsRejected(setup: Setup, first: Env, second: Env)
    requires !InitOk(setup, first)
    ensures var moves := [Advance(first), Advance(second)];
            && Reach(setup, moves).Ended?
            && |Published(setup, moves)| == 1 && Published(setup, moves)[0].data.RunFailed?
            && !Log.Accepted(Published(setup, moves))
  {
    hide Next, Initialize, RunTranslation, InitOk, FeedAll, MoveItems;
    var moves := [Advance(first), Advance(second)];
    NothingSaidYet(setup);
    assert moves == [Advance(first)] + [Advance(second)] && [Advance(first)] == [] + [Advance(first)];
    Snoc(setup, [], Advance(first));
    Snoc(setup, [Advance(first)], Advance(second));
    TranslationOf(setup, [], Advance(first));
    TranslationOf(setup, [Advance(first)], Advance(second));
    var refused := RefusedStart(setup, first);
    FailedStart(setup, refused, second);
  }

  lemma NothingSaidYet(setup: Setup)
    ensures RunTranslation(setup, []) == EMPTY
  {
  }

  lemma RefusedStart(setup: Setup, env: Env) returns (refused: State)
    requires !InitOk(setup, env)
    ensures Next(setup, At(InitializeRun, INITIAL), Advance(env)) == At(Fail, refused)
    ensures FeedAll(setup.runId, 0, EMPTY, MoveItems(setup, At(InitializeRun, INITIAL), Advance(env))) == EMPTY
  {
    var turn := Initialize(setup, INITIAL, env);
    refused := turn.state;
    assert ItemsOf(turn) == [Updated(None)];
    FeedOne(setup.runId, 0, EMPTY, Updated(None));
  }

  lemma FailedStart(setup: Setup, s: State, env: Env)
    ensures var t := FeedAll(setup.runId, 0, EMPTY, MoveItems(setup, At(Fail, s), Advance(env)));
            && Next(setup, At(Fail, s), Advance(env)).Ended?
            && |t.events| == 1 && t.events[0].data.RunFailed? && !Log.Accepted(t.events)
  {
    hide FailRun;
    FailRunSays(s);
    var end := FailRun(s);
    assert ItemsOf(end) == [Custom(end.payloads[0]), Updated(end.state.response)];
    FeedTwo(setup.runId, 0, EMPTY, Custom(end.payloads[0]), Updated(end.state.response));
  }

  /**
   * After a resume message that is refused, the graph still goes to the planner. The stream stays
   * acceptable if and only if one of the planner's guards stops it there: a plan that goes ahead is
   * announced in a waiting run.
   */
  lemma RefusedResumeIsAcceptedIff(setup: Setup, moves: seq<Move>, first: Env, value: ResumeValue, second: Env)
    requires Proper(setup, moves) && Reach(setup, moves).Paused? && EnvValid(first) && EnvValid(second)
    requires Blocked(Reach(setup, moves).state, first).None? && ResumeMessage(value).Raised?
    ensures var refused := Failed(Reach(setup, moves).state, Coded(ResumeMessage(value).error), []).state;
            var longer := moves + [Resume(first, value), Advance(second)];
            Log.Accepted(RunTranslation(setup, longer).events) <==> !PlanGoesAhead(setup, refused, second)
  {
    hide Next, RunTranslation, Plan, PlanGoesAhead, Monotone, ResumesAccepted, InitOk, EnvValid, ResumeMessage, Blocked,
         Log.Accepted, Reach, Ready;
    var s := Reach(setup, moves).state;
    RunSpeaks(setup, moves);
    ReachFits(setup, moves);
    var t := RunTranslation(setup, moves);
    var one := moves + [Resume(first, value)];
    assert moves + [Resume(first, value), Advance(second)] == one + [Advance(second)];
    TranslationOf(setup, moves, Resume(first, value));
    TranslationOf(setup, one, Advance(second));
    Snoc(setup, moves, Resume(first, value));
    RefusedTurn(setup, s, first, value, t);
    PlanSpeaksFirst(setup, Failed(s, Coded(ResumeMessage(value).error), []).state, second, t);
    RefusedPlanning(setup, s, Coded(ResumeMessage(value).error), second);
  }

  lemma RefusedPlanning(setup: Setup, s: State, error: AgentError, env: Env)
    requires Ready(setup, RequestInput, s)
    ensures Plan(setup, Failed(s, error, []).state, env).payloads != []
            <==> PlanGoesAhead(setup, Failed(s, error, []).state, env)
  {
    hide Plan, PlanGoesAhead, UniqueIds;
    PlanGoesAheadIff(setup, Failed(s, error, []).state, env);
  }

  lemma TranslationOf(setup: Setup, moves: seq<Move>, m: Move)
    ensures RunTranslation(setup, moves + [m])
            == FeedAll(setup.runId, 0, RunTranslation(setup, moves), MoveItems(setup, Reach(setup, moves), m))
  {
    assert (moves + [m])[..|moves|] == moves;
    TranslationSnoc(setup, moves + [m]);
  }

  lemma RefusedTurn(setup: Setup, s: State, env: Env, value: ResumeValue, t: Translation)
    requires Ready(setup, RequestInput, s) && Blocked(s, env).None? && ResumeMessage(value).Raised?
    requires t.pending.None?
    ensures var refused := Failed(s, Coded(ResumeMessage(value).error), []).state;
            && Next(setup, Paused(s), Resume(env, value)) == At(PlanOrReplan, refused)
            && FeedAll(setup.runId, 0, t, MoveItems(setup, Paused(s), Resume(env, value))) == t
  {
    var refused := Failed(s, Coded(ResumeMessage(value).error), []);
    assert Request(setup, s, env, Some(value)) == refused;
    assert ItemsOf(refused) == [] + [Updated(refused.state.response)];
    FeedUpdate(setup.runId, t, [], refused.state.response);
  }

  lemma {:induction false} FeedExtends(runId: string, t: Translation, items: seq<Item>)
    ensures t.events <= FeedAll(runId, 0, t, items).events
  {
    if items != [] {
      FeedExtends(runId, t, items[..|items| - 1]);
    }
  }

  lemma PlanSpeaksFirst(setup: Setup, s: State, env: Env, t: Translation)
    requires Good(setup.runId, t, Log.Waiting)
    ensures Log.Accepted(FeedAll(setup.runId, 0, t, ItemsOf(Plan(setup, s, env))).events)
            <==> Plan(setup, s, env).payloads == []
  {
    PlanIsPlain(setup, s, env);
    var turn := Plan(setup, s, env);
    var update := Updated(turn.state.response);
    if turn.payloads == [] {
      assert ItemsOf(turn) == [] + [update];
      FeedUpdate(setup.runId, t, [], turn.state.response);
    } else {
      assert turn.payloads[0] in turn.payloads;
      PlainIsRefused(setup.runId, t, turn.payloads[0], Customs(turn.payloads)[1..] + [update]);
      assert ItemsOf(turn) == [Custom(turn.payloads[0])] + (Customs(turn.payloads)[1..] + [update]);
    }
  }

  // While the log waits, a plain event is refused, and with it every stream that contains it there.
  lemma PlainIsRefused(runId: string, t: Translation, d: EventData, rest: seq<Item>)
    requires Good(runId, t, Log.Waiting) && Plain(d)
    ensures !Log.Accepted(FeedAll(runId, 0, t, [Custom(d)] + rest).events)
  {
    hide FeedAll;
    FeedConcat(runId, 0, t, [Custom(d)], rest);
    FeedOne(runId, 0, t, Custom(d));
    var u := Publish(runId, 0, t, d, None);
    assert Feed(runId, 0, t, Custom(d)) == u;
    FeedExtends(runId, u, rest);
    PlainNotNext(t.events, AgentEvent(runId, |t.events|, d, None));
    hide Log.Accepted, Good, Feed, Plain, Log.StatusOf;
    var events := FeedAll(runId, 0, t, [Custom(d)] + rest).events;
    assert events[..|u.events|] == u.events;
    if Log.Accepted(events) {
      Log.AcceptedPrefix(events, |u.events|);
    }
  }

  lemma PlainNotNext(events: seq<AgentEvent>, e: AgentEvent)
    requires Log.Accepted(events) && Log.StatusOf(events) == Log.Waiting && events != [] && Plain(e.data)
    ensures !Log.Accepted(events + [e])
  {
    Log.AcceptedSnoc(events, e);
  }
}
