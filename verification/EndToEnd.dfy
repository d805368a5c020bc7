/**
 * From the graph to the screen: what a run emits is what the browser reads off the wire, and what the
 * browser shows is where the run stands.
 */
module EndToEnd {
  import opened Outcomes
  import opened AgentModels
  import opened AgentRouting
  import opened AnalysisGraph
  import opened GraphStream
  import Log = RunEventStore
  import Wire = EventStreamWire
  import Client = RunReplica

  // ---- one leg closes once ----

  /**
   * The moves from `start` on are a whole leg: from the beginning or a wait, through nodes only, to a
   * wait or the end.
   */
  ghost predicate IsLeg(setup: Setup, moves: seq<Move>, start: nat) {
    && Proper(setup, moves) && start < |moves|
    && (start == 0 || Reach(setup, moves[..start]).Paused?)
    && (forall k | start < k < |moves| :: Reach(setup, moves[..k]).At?)
    && !Reach(setup, moves).At?
  }

  /** How many events were out when the leg began. */
  function Before(setup: Setup, moves: seq<Move>, start: nat): nat
    requires start <= |moves|
  {
    |RunTranslation(setup, moves[..start]).events|
  }

  predicate Silent(item: Item) {
    !item.Interrupted? && (item.Custom? ==> !item.data.RunWaiting?)
  }

  /** From `n` on, nothing waits. */
  ghost predicate QuietFrom(events: seq<AgentEvent>, n: nat) {
    forall i | n <= i < |events| :: !events[i].data.RunWaiting?
  }

  lemma {:induction false} FeedSilent(runId: string, t: Translation, items: seq<Item>, n: nat)
    requires forall item | item in items :: Silent(item)
    requires QuietFrom(t.events, n) && (t.pending.Some? ==> !t.pending.value.RunWaiting?)
    ensures QuietFrom(FeedAll(runId, 0, t, items).events, n)
    ensures FeedAll(runId, 0, t, items).pending.Some? ==> !FeedAll(runId, 0, t, items).pending.value.RunWaiting?
  {
    if items != [] {
      var init := items[..|items| - 1];
      assert items[|items| - 1] in items && forall x | x in init :: x in items;
      FeedSilent(runId, t, init, n);
    }
  }

  lemma TurnNeverWaits(setup: Setup, node: Node, s: State, env: Env, resume: Option<ResumeValue>)
    requires !RunNode(setup, node, s, env, resume).Pause?
    ensures forall d | d in RunNode(setup, node, s, env, resume).payloads :: !d.RunWaiting?
  {
    if !node.RequestInput? && !node.FinalizeRun? && !node.Fail? {
      TurnIsPlain(setup, node, s, env, resume);
    } else {
      SpecialTurnsNeverWait(setup, s, env, resume);
    }
  }

  lemma SpecialTurnsNeverWait(setup: Setup, s: State, env: Env, resume: Option<ResumeValue>)
    ensures !Request(setup, s, env, resume).Pause? ==>
              forall d | d in Request(setup, s, env, resume).payloads :: !d.RunWaiting?
    ensures forall d | d in Finalize(s, env).payloads :: !d.RunWaiting?
    ensures forall d | d in FailRun(s).payloads :: !d.RunWaiting?
  {
  }

  lemma ItemsAreSilent(t: Turn)
    requires !t.Pause? && forall d | d in t.payloads :: !d.RunWaiting?
    ensures forall item | item in ItemsOf(t) :: Silent(item)
  {
    forall item | item in ItemsOf(t) ensures Silent(item) {
      if item in Customs(t.payloads) {
        var i :| 0 <= i < |t.payloads| && Customs(t.payloads)[i] == item;
        assert t.payloads[i] in t.payloads;
      }
    }
  }

  // An attempt that does not pause says nothing that waits.
  lemma MoveIsSilent(setup: Setup, c: Config, m: Move)
    requires Enabled(c, m) && !Next(setup, c, m).Paused?
    ensures forall item | item in MoveItems(setup, c, m) :: Silent(item)
  {
    TurnNeverWaits(setup, NodeOf(c), c.state, m.env, if m.Resume? then Some(m.value) else None);
    ItemsAreSilent(TurnOf(setup, c, m));
  }

  lemma QuietMove(setup: Setup, moves: seq<Move>, m: Move, n: nat)
    requires Enabled(Reach(setup, moves), m) && !Reach(setup, moves + [m]).Paused?
    requires QuietFrom(RunTranslation(setup, moves).events, n) && RunTranslation(setup, moves).pending.None?
    ensures QuietFrom(RunTranslation(setup, moves + [m]).events, n)
    ensures |RunTranslation(setup, moves).events| <= |RunTranslation(setup, moves + [m]).events|
  {
    Snoc(setup, moves, m);
    TranslationOf(setup, moves, m);
    MoveIsSilent(setup, Reach(setup, moves), m);
    FeedSilent(setup.runId, RunTranslation(setup, moves), MoveItems(setup, Reach(setup, moves), m), n);
    FeedExtends(setup.runId, RunTranslation(setup, moves), MoveItems(setup, Reach(setup, moves), m));
  }

  lemma {:induction false} PrefixIsProper(setup: Setup, moves: seq<Move>, n: nat)
    requires Proper(setup, moves) && 0 < n <= |moves|
    ensures Proper(setup, moves[..n])
    decreases |moves| - n
  {
    if n == |moves| {
      assert moves[..n] == moves;
    } else {
      PrefixIsProper(setup, moves, n + 1);
      ProperPrefix(setup, moves[..n + 1]);
      assert moves[..n + 1][..n] == moves[..n];
    }
  }

  lemma NothingPending(setup: Setup, moves: seq<Move>, n: nat)
    requires Proper(setup, moves) && n <= |moves|
    ensures RunTranslation(setup, moves[..n]).pending.None?
  {
    if n > 0 {
      PrefixIsProper(setup, moves, n);
      StreamIsAccepted(setup, moves[..n]);
    }
  }

  lemma {:induction false} LegStaysQuiet(setup: Setup, moves: seq<Move>, start: nat, n: nat)
    requires Proper(setup, moves) && start <= n <= |moves|
    requires forall k | start < k <= n :: !Reach(setup, moves[..k]).Paused?
    ensures QuietFrom(RunTranslation(setup, moves[..n]).events, Before(setup, moves, start))
    ensures Before(setup, moves, start) <= |RunTranslation(setup, moves[..n]).events|
    decreases n
  {
    if n > start {
      LegStaysQuiet(setup, moves, start, n - 1);
      QuietPrefix(setup, moves, n - 1, Before(setup, moves, start));
    }
  }

  lemma QuietPrefix(setup: Setup, moves: seq<Move>, k: nat, n: nat)
    requires Proper(setup, moves) && k < |moves| && !Reach(setup, moves[..k + 1]).Paused?
    requires QuietFrom(RunTranslation(setup, moves[..k]).events, n)
    ensures QuietFrom(RunTranslation(setup, moves[..k + 1]).events, n)
    ensures |RunTranslation(setup, moves[..k]).events| <= |RunTranslation(setup, moves[..k + 1]).events|
  {
    hide Reach, RunItems;
    NothingPending(setup, moves, k);
    assert Enabled(Reach(setup, moves[..k]), moves[k]);
    assert moves[..k + 1] == moves[..k] + [moves[k]];
    QuietMove(setup, moves[..k], moves[k], n);
  }

  lemma EventsGrow(setup: Setup, moves: seq<Move>, start: nat)
    requires start <= |moves|
    ensures RunTranslation(setup, moves[..start]).events <= RunTranslation(setup, moves).events
  {
    var before, leg := moves[..start], moves[start..];
    assert before + leg == moves;
    ItemsByLegs(setup, before, leg);
    FeedConcat(setup.runId, 0, EMPTY, RunItems(setup, before), LegItems(setup, before, leg));
    FeedExtends(setup.runId, RunTranslation(setup, before), LegItems(setup, before, leg));
  }

  // A run that has come to a wait has said so last.
  lemma WaitIsLast(setup: Setup, moves: seq<Move>)
    requires Proper(setup, moves) && Reach(setup, moves).Paused?
    ensures LastWaits(RunTranslation(setup, moves).events)
  {
    hide RunTranslation, Reach, Proper, Log.Accepted, Log.StatusOf, ValidEvent;
    StreamIsAccepted(setup, moves);
    Log.StatusIsLast(Published(setup, moves));
  }

  lemma TerminalIsLast(setup: Setup, moves: seq<Move>)
    requires Proper(setup, moves) && (Reach(setup, moves).Ended? || Reach(setup, moves).Crashed?)
    ensures LastIsTerminal(Published(setup, moves))
  {
    StreamIsAccepted(setup, moves);
    OneTerminalEvent(setup, moves, |Published(setup, moves)| - 1);
  }

  lemma StartWaits(setup: Setup, moves: seq<Move>, start: nat)
    requires Proper(setup, moves) && 0 < start <= |moves| && Reach(setup, moves[..start]).Paused?
    ensures LastWaits(RunTranslation(setup, moves[..start]).events)
  {
    PrefixIsProper(setup, moves, start);
    WaitIsLast(setup, moves[..start]);
  }

  lemma PublishedExtends(setup: Setup, moves: seq<Move>, start: nat)
    requires start <= |moves|
    ensures RunTranslation(setup, moves[..start]).events <= Published(setup, moves)
  {
    EventsGrow(setup, moves, start);
  }

  predicate LastWaits(events: seq<AgentEvent>) {
    events != [] && events[|events| - 1].data.RunWaiting?
  }

  predicate LastIsTerminal(events: seq<AgentEvent>) {
    events != [] && IsTerminal(events[|events| - 1].data)
  }

  lemma LegSaysSomething(setup: Setup, moves: seq<Move>, start: nat)
    requires start <= |moves| && LastWaits(RunTranslation(setup, moves[..start]).events)
    requires LastIsTerminal(Published(setup, moves))
    ensures Before(setup, moves, start) < |Published(setup, moves)|
  {
    hide RunTranslation, Published, IsTerminal;
    PublishedExtends(setup, moves, start);
    DifferentLast(RunTranslation(setup, moves[..start]).events, Published(setup, moves));
  }

  lemma DifferentLast(a: seq<AgentEvent>, b: seq<AgentEvent>)
    requires a != [] && b != [] && a <= b
    requires a[|a| - 1].data.RunWaiting? && IsTerminal(b[|b| - 1].data)
    ensures |a| < |b|
  {
  }

  lemma PauseAddsOne(setup: Setup, moves: seq<Move>)
    requires moves != [] && Reach(setup, moves).Paused? && RunTranslation(setup, moves).error.None?
    requires Enabled(Reach(setup, moves[..|moves| - 1]), moves[|moves| - 1])
    ensures |RunTranslation(setup, moves).events| == |RunTranslation(setup, moves[..|moves| - 1]).events| + 1
    ensures RunTranslation(setup, moves[..|moves| - 1]).events <= RunTranslation(setup, moves).events
  {
    hide Enabled, MoveItems, Next, RunItems;
    var init, m := moves[..|moves| - 1], moves[|moves| - 1];
    assert moves == init + [m];
    Snoc(setup, init, m);
    TranslationOf(setup, init, m);
    var c := Reach(setup, init);
    PausesOnly(setup, c, m);
    FeedOne(setup.runId, 0, RunTranslation(setup, init), MoveItems(setup, c, m)[0]);
  }

  lemma PausesOnly(setup: Setup, c: Config, m: Move)
    requires Enabled(c, m) && Next(setup, c, m).Paused?
    ensures |MoveItems(setup, c, m)| == 1 && MoveItems(setup, c, m) == [MoveItems(setup, c, m)[0]]
    ensures MoveItems(setup, c, m)[0].Interrupted?
  {
    if TurnOf(setup, c, m).Finished? {
      NeverLandsPaused(NodeOf(c), TurnOf(setup, c, m).state);
    }
  }

  lemma NeverLandsPaused(node: Node, s: State)
    ensures !Landed(node, s).Paused?
  {
  }

  lemma LegIsQuiet(setup: Setup, moves: seq<Move>, start: nat)
    requires IsLeg(setup, moves, start)
    ensures QuietFrom(RunTranslation(setup, moves[..|moves| - 1]).events, Before(setup, moves, start))
    ensures Before(setup, moves, start) <= |RunTranslation(setup, moves[..|moves| - 1]).events|
  {
    hide RunTranslation, Proper;
    LegStaysQuiet(setup, moves, start, |moves| - 1);
  }

  lemma LegStartsAtWait(setup: Setup, moves: seq<Move>, start: nat)
    requires IsLeg(setup, moves, start)
    ensures start == 0 || LastWaits(RunTranslation(setup, moves[..start]).events)
  {
    if start > 0 {
      StartWaits(setup, moves, start);
    }
  }

  lemma EndedLegClosesOnce(setup: Setup, moves: seq<Move>, start: nat)
    requires Proper(setup, moves) && start < |moves| && (Reach(setup, moves).Ended? || Reach(setup, moves).Crashed?)
    requires start == 0 || LastWaits(RunTranslation(setup, moves[..start]).events)
    requires QuietFrom(RunTranslation(setup, moves[..|moves| - 1]).events, Before(setup, moves, start))
    ensures ClosesOnce(setup, moves, start)
  {
    QuietToTheEnd(setup, moves, Before(setup, moves, start));
    TerminalIsLast(setup, moves);
    if start == 0 {
      NothingBeforeTheStart(setup, moves);
    } else {
      LegSaysSomething(setup, moves, start);
    }
    EndedLegCloses(setup, moves, Before(setup, moves, start));
  }

  /** The events from the start of the leg on hold one that closes the stream, and it is the last. */
  ghost predicate ClosesOnce(setup: Setup, moves: seq<Move>, start: nat)
    requires start <= |moves|
  {
    var events := Published(setup, moves);
    var n := Before(setup, moves, start);
    n < |events| && Wire.OnlyClosing(events[n..], |events| - n - 1)
  }

  /** Every whole leg of a run closes its stream exactly once, with its last event. */
  lemma LegClosesOnce(setup: Setup, moves: seq<Move>, start: nat)
    requires IsLeg(setup, moves, start)
    ensures ClosesOnce(setup, moves, start)
  {
    LegIsQuiet(setup, moves, start);
    if Reach(setup, moves).Paused? {
      PausedLegCloses(setup, moves, Before(setup, moves, start));
    } else {
      LegStartsAtWait(setup, moves, start);
      EndedLegClosesOnce(setup, moves, start);
    }
  }

  lemma NothingBeforeTheStart(setup: Setup, moves: seq<Move>)
    ensures Before(setup, moves, 0) == 0
  {
    assert moves[..0] == [];
  }

  lemma QuietToTheEnd(setup: Setup, moves: seq<Move>, n: nat)
    requires Proper(setup, moves) && !Reach(setup, moves).Paused?
    requires QuietFrom(RunTranslation(setup, moves[..|moves| - 1]).events, n)
    ensures QuietFrom(RunTranslation(setup, moves).events, n)
  {
    assert moves[..|moves|] == moves;
    QuietPrefix(setup, moves, |moves| - 1, n);
  }

  lemma LastMoveEnabled(setup: Setup, moves: seq<Move>)
    requires Proper(setup, moves)
    ensures moves != [] && Enabled(Reach(setup, moves[..|moves| - 1]), moves[|moves| - 1])
  {
    hide Reach, Enabled, Monotone, ResumesAccepted, InitOk;
    var k := |moves| - 1;
    assert Enabled(Reach(setup, moves[..k]), moves[k]);
  }

  // A paused run has said a wait more than before its last move, and nothing terminal.
  lemma PauseEndsInWait(setup: Setup, moves: seq<Move>)
    requires Proper(setup, moves) && Reach(setup, moves).Paused?
    ensures var events, before := Published(setup, moves), RunTranslation(setup, moves[..|moves| - 1]).events;
            && |events| == |before| + 1 && before <= events && LastWaits(events)
            && forall i | 0 <= i < |events| :: !IsTerminal(events[i].data)
  {
    hide RunTranslation, Proper, Reach, Enabled, Log.Accepted, Log.StatusOf, ValidEvent;
    var events := Published(setup, moves);
    LastMoveEnabled(setup, moves);
    StreamIsAccepted(setup, moves);
    PauseAddsOne(setup, moves);
    WaitIsLast(setup, moves);
    forall i | 0 <= i < |events| ensures !IsTerminal(events[i].data) {
      OneTerminalEvent(setup, moves, i);
    }
  }

  lemma PausedLegCloses(setup: Setup, moves: seq<Move>, n: nat)
    requires Proper(setup, moves) && Reach(setup, moves).Paused?
    requires n <= |RunTranslation(setup, moves[..|moves| - 1]).events|
    requires QuietFrom(RunTranslation(setup, moves[..|moves| - 1]).events, n)
    ensures var events := Published(setup, moves);
            n < |events| && Wire.OnlyClosing(events[n..], |events| - n - 1)
  {
    hide RunTranslation, Published, Proper, Reach, Wire.OnlyClosing, IsTerminal;
    PauseEndsInWait(setup, moves);
    ClosesAtEnd(Published(setup, moves), n);
  }

  lemma EndedLegCloses(setup: Setup, moves: seq<Move>, n: nat)
    requires Proper(setup, moves) && (Reach(setup, moves).Ended? || Reach(setup, moves).Crashed?)
    requires QuietFrom(RunTranslation(setup, moves).events, n) && (n == 0 || n < |Published(setup, moves)|)
    ensures var events := Published(setup, moves);
            n < |events| && Wire.OnlyClosing(events[n..], |events| - n - 1)
  {
    var events := Published(setup, moves);
    TerminalIsLast(setup, moves);
    forall i | 0 <= i < |events| - 1 ensures !IsTerminal(events[i].data) {
      OneTerminalEvent(setup, moves, i);
    }
    ClosesAtEnd(events, n);
  }

  lemma ClosesAtEnd(events: seq<AgentEvent>, n: nat)
    requires n < |events| && IsStreamClosing(events[|events| - 1].data)
    requires forall i | 0 <= i < |events| - 1 :: !IsTerminal(events[i].data)
    requires forall i | n <= i < |events| - 1 :: !events[i].data.RunWaiting?
    ensures Wire.OnlyClosing(events[n..], |events| - n - 1)
  {
  }

  // ---- over the wire ----

  /**
   * However the network cuts a leg's printed events, the browser reads all of them in order and then
   * the one closing event, which is also what the server's own collector returns.
   */
  lemma BrowserReadsTheLeg(
    setup: Setup, moves: seq<Move>, start: nat, leg: seq<AgentEvent>, chunks: seq<string>,
    encode: AgentEvent -> string, decode: string -> Option<AgentEvent>)
    requires start <= |moves| && IsLeg(setup, moves, start) && Wire.Codec(encode, decode)
    requires leg == LegEvents(setup, moves, start) && Wire.Flatten(chunks) == Wire.Print(leg, encode)
    ensures leg != []
    ensures Wire.ReadText(Wire.Flatten(chunks), decode)
            == Wire.ReadResult(leg, Returned(Wire.ClosingOf(leg[|leg| - 1])))
  {
    hide IsLeg, ClosesOnce, LegEvents;
    LegClosesOnce(setup, moves, start);
    LegIsValid(setup, moves, start);
    LegCloses(setup, moves, start);
    ClosedStreamIsRead(leg, chunks, encode, decode);
  }

  lemma LegCloses(setup: Setup, moves: seq<Move>, start: nat)
    requires start <= |moves| && ClosesOnce(setup, moves, start)
    ensures var leg := LegEvents(setup, moves, start);
            leg != [] && Wire.OnlyClosing(leg, |leg| - 1)
  {
    hide RunTranslation, Published;
  }

  /** The events of the leg that starts there: what the run publishes beyond what was out by then. */
  function LegEvents(setup: Setup, moves: seq<Move>, start: nat): seq<AgentEvent>
    requires start <= |moves|
  {
    var n, events := Before(setup, moves, start), Published(setup, moves);
    if n <= |events| then events[n..] else []
  }

  lemma LegIsValid(setup: Setup, moves: seq<Move>, start: nat)
    requires start <= |moves| && IsLeg(setup, moves, start)
    ensures forall e | e in LegEvents(setup, moves, start) :: ValidEvent(e)
  {
    hide Reach, RunTranslation;
    StreamIsAccepted(setup, moves);
    assert forall e | e in LegEvents(setup, moves, start) :: e in Published(setup, moves);
  }

  lemma ClosedStreamIsRead(
    leg: seq<AgentEvent>, chunks: seq<string>, encode: AgentEvent -> string, decode: string -> Option<AgentEvent>)
    requires leg != [] && Wire.OnlyClosing(leg, |leg| - 1) && forall e | e in leg :: ValidEvent(e)
    requires Wire.Codec(encode, decode) && Wire.Flatten(chunks) == Wire.Print(leg, encode)
    ensures Wire.ReadText(Wire.Flatten(chunks), decode)
            == Wire.ReadResult(leg, Returned(Wire.ClosingOf(leg[|leg| - 1])))
  {
    Wire.PrintThenRead(leg, chunks, encode, decode);
    Wire.ReadersAgree(leg, |leg| - 1);
  }

  // ---- on the screen ----

  function StatusShown(c: Config): Client.ReplicaStatus
    requires !c.At?
  {
    match c
    case Paused(_) => Client.Waiting
    case Crashed(_) => Client.Failed
    case Ended(s) => Client.StatusView(EndStatus(s.status))
  }

  /**
   * A browser that has received a run's events, in any order and with any repetitions, shows where the
   * run stands, and has a question open exactly when the run waits.
   */
  lemma ScreenShowsTheRun(setup: Setup, moves: seq<Move>, received: seq<AgentEvent>)
    requires Proper(setup, moves) && setup.runId != "" && !Reach(setup, moves).At?
    requires forall e :: e in received <==> e in Published(setup, moves)
    ensures Client.AllValid(received)
    ensures Client.HydrateRun(received).Returned?
    ensures Client.HydrateRun(received).value.events == Published(setup, moves)
    ensures Client.HydrateRun(received).value.status == StatusShown(Reach(setup, moves))
    ensures Client.HydrateRun(received).value.inputRequest.Some? <==> Reach(setup, moves).Paused?
  {
    hide Reach, RunTranslation, Published;
    StreamIsAccepted(setup, moves);
    ReachFits(setup, moves);
    Client.HydrateIsReplica(Published(setup, moves), setup.runId, received);
  }
}
