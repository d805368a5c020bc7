/**
 * The append-only run-event log: one table of runs with a derived status, one table
 * of numbered events. The log of a run is specified by what an event may follow;
 * the two tables are proved to be an exact image of it.
 */
module RunEventStore {
  import opened AgentModels
  import opened Outcomes

  datatype Principal = Principal(tenantId: string, userId: string)

  datatype RunKey = RunKey(tenantId: string, userId: string, runId: string)

  datatype RunStatus = Running | Waiting | Completed | Failed | Cancelled

  predicate IsActive(s: RunStatus) { s.Running? || s.Waiting? }

  // ---- the log of one run ----

  /** The status an event leaves behind, given the status before it. */
  function NextStatus(current: RunStatus, d: EventData): RunStatus {
    match d
    case RunFailed(code) => if code.CANCELLED? then Cancelled else Failed
    case RunWaiting(_) => Waiting
    case RunResumed(_) => Running
    case RunCompleted => Completed
    case _ => current
  }

  function StatusOf(events: seq<AgentEvent>): RunStatus {
    if events == [] then Running
    else NextStatus(StatusOf(events[..|events| - 1]), events[|events| - 1].data)
  }

  /** The checks of `append` for an event that is not stored yet. */
  predicate AcceptsNext(events: seq<AgentEvent>, e: AgentEvent) {
    && e.sequence == |events|
    && (events == [] ==> e.data.RunStarted?)
    && (events != [] ==>
          && IsActive(StatusOf(events))
          && (StatusOf(events).Waiting? ==> e.data.RunResumed? || e.data.RunFailed?)
          && (e.data.RunResumed? ==> StatusOf(events).Waiting?))
  }

  ghost predicate Accepted(events: seq<AgentEvent>) {
    events == [] ||
    (Accepted(events[..|events| - 1]) && AcceptsNext(events[..|events| - 1], events[|events| - 1]))
  }

  lemma AcceptedSnoc(events: seq<AgentEvent>, e: AgentEvent)
    ensures Accepted(events + [e]) <==> Accepted(events) && AcceptsNext(events, e)
    ensures StatusOf(events + [e]) == NextStatus(StatusOf(events), e.data)
  {
    assert (events + [e])[..|events|] == events;
  }

  /** Which event may directly follow which: nothing follows a terminal event, waits and resumes alternate. */
  predicate MayFollow(before: EventData, next: EventData) {
    && !IsTerminal(before)
    && (before.RunWaiting? ==> next.RunResumed? || next.RunFailed?)
    && (next.RunResumed? ==> before.RunWaiting?)
  }

  predicate PairFits(events: seq<AgentEvent>, i: nat)
    requires i + 1 < |events|
  {
    MayFollow(events[i].data, events[i + 1].data)
  }

  /** What a log looks like, said of positions and neighbours only: no status, no history. */
  ghost predicate LogShape(events: seq<AgentEvent>) {
    && (forall i | 0 <= i < |events| :: events[i].sequence == i)
    && (events != [] ==> events[0].data.RunStarted?)
    && (forall i: nat | i + 1 < |events| :: PairFits(events, i))
  }

  lemma ShapeSnoc(events: seq<AgentEvent>, e: AgentEvent)
    ensures LogShape(events + [e]) <==>
              && LogShape(events)
              && e.sequence == |events|
              && (if events == [] then e.data.RunStarted? else MayFollow(events[|events| - 1].data, e.data))
  {
    var longer := events + [e];
    assert longer[|events|] == e;
    assert forall i: nat | i + 1 < |events| :: PairFits(events, i) == PairFits(longer, i);
    if events != [] {
      assert PairFits(longer, |events| - 1) == MayFollow(events[|events| - 1].data, e.data);
      if LogShape(longer) {
        assert forall i | 0 <= i < |events| :: events[i] == longer[i];
      }
    }
  }

  function StatusOfLast(d: EventData): RunStatus {
    match d
    case RunFailed(code) => if code.CANCELLED? then Cancelled else Failed
    case RunWaiting(_) => Waiting
    case RunCompleted => Completed
    case _ => Running
  }

  /** In an accepted log the folded status is decided by the last event alone. */
  lemma {:induction false} StatusIsLast(events: seq<AgentEvent>)
    requires Accepted(events) && events != []
    ensures StatusOf(events) == StatusOfLast(events[|events| - 1].data)
  {
    var init := events[..|events| - 1];
    if init != [] {
      StatusIsLast(init);
    }
  }

  /**
   * The event-by-event checks accept exactly the well-shaped logs: numbered 0..n-1 from
   * `run_started`, a terminal event only at the end, waits and resumes alternating.
   */
  lemma {:induction false} AcceptedIffShape(events: seq<AgentEvent>)
    ensures Accepted(events) <==> LogShape(events)
  {
    if events != [] {
      var init, e := events[..|events| - 1], events[|events| - 1];
      assert events == init + [e];
      AcceptedIffShape(init);
      AcceptedSnoc(init, e);
      ShapeSnoc(init, e);
      if Accepted(init) && init != [] {
        StatusIsLast(init);
      }
    }
  }

  lemma SequenceAt(events: seq<AgentEvent>, i: nat)
    requires Accepted(events) && i < |events|
    ensures events[i].sequence == i
  {
    AcceptedIffShape(events);
  }

  lemma {:induction false} AcceptedPrefix(events: seq<AgentEvent>, n: nat)
    requires Accepted(events) && n <= |events|
    ensures Accepted(events[..n])
    ensures n < |events| ==> AcceptsNext(events[..n], events[n])
  {
    var m := |events| - 1;
    if n == |events| {
      assert events[..n] == events;
    } else if n < m {
      AcceptedPrefix(events[..m], n);
      assert events[..m][..n] == events[..n];
    }
  }

  // ---- the log of every run ----

  datatype RunLog = RunLog(conversationId: Option<string>, status: RunStatus, events: seq<AgentEvent>)

  type Log = map<RunKey, RunLog>

  datatype AppendResult =
    | Stored
    | AlreadyStored
    | ConversationConflict
    | AnotherPayload
    | MustStartAtZero
    | OwnershipChanged
    | TerminalRun
    | NotContiguous
    | WaitingRun
    | NotWaiting

  predicate IsSpace(c: char) {
    || '\t' <= c <= '\r' || '\U{1c}' <= c <= ' ' || c == '\U{85}' || c == '\U{a0}' || c == '\U{1680}'
    || '\U{2000}' <= c <= '\U{200a}' || c == '\U{2028}' || c == '\U{2029}' || c == '\U{202f}'
    || c == '\U{205f}' || c == '\U{3000}'
  }

  function StripLeft(s: string): string {
    if s != [] && IsSpace(s[0]) then StripLeft(s[1..]) else s
  }

  function StripRight(s: string): string {
    if s != [] && IsSpace(s[|s| - 1]) then StripRight(s[..|s| - 1]) else s
  }

  function Strip(s: string): string { StripRight(StripLeft(s)) }

  predicate AllSpace(s: string) {
    forall i | 0 <= i < |s| :: IsSpace(s[i])
  }

  lemma {:induction false} StripLeftIs(s: string) returns (n: nat)
    ensures n <= |s| && AllSpace(s[..n]) && StripLeft(s) == s[n..] && (n < |s| ==> !IsSpace(s[n]))
  {
    n := 0;
    if s != [] && IsSpace(s[0]) {
      var rest := StripLeftIs(s[1..]);
      n := rest + 1;
      assert forall i | 0 < i < n :: s[i] == s[1..][..rest][i - 1];
    }
  }

  lemma {:induction false} StripRightIs(s: string) returns (n: nat)
    ensures n <= |s| && AllSpace(s[n..]) && StripRight(s) == s[..n] && (n > 0 ==> !IsSpace(s[n - 1]))
  {
    n := |s|;
    if s != [] && IsSpace(s[|s| - 1]) {
      n := StripRightIs(s[..|s| - 1]);
      assert forall i | n <= i < |s| - 1 :: s[i] == s[..|s| - 1][n..][i - n];
    }
  }

  /** Stripping takes blanks off both ends, all of them, and nothing else. */
  lemma StripIs(s: string) returns (before: string, after: string)
    ensures s == before + Strip(s) + after && AllSpace(before) && AllSpace(after)
    ensures Strip(s) != "" ==> !IsSpace(Strip(s)[0]) && !IsSpace(Strip(s)[|Strip(s)| - 1])
  {
    var n := StripLeftIs(s);
    var m := StripRightIs(s[n..]);
    before, after := s[..n], s[n..][m..];
    assert s == s[..n] + s[n..] && s[n..] == s[n..][..m] + s[n..][m..];
  }

  /** The id without surrounding blanks; a missing or empty id counts as none. */
  function Conversation(raw: Option<string>): Option<string> {
    if raw.Some? && raw.value != "" then Some(Strip(raw.value)) else None
  }

  function KeyOf(p: Principal, runId: string): RunKey { RunKey(p.tenantId, p.userId, runId) }

  predicate Holds(log: Log, k: RunKey, p: Principal, conversation: string) {
    && k in log && k.tenantId == p.tenantId && k.userId == p.userId
    && log[k].conversationId == Some(conversation) && IsActive(log[k].status)
  }

  predicate ConversationBusy(log: Log, p: Principal, conversation: string) {
    exists k | k in log :: Holds(log, k, p, conversation)
  }

  function EventsOf(log: Log, k: RunKey): seq<AgentEvent> {
    if k in log then log[k].events else []
  }

  /** The run with one more event; a run that has a conversation keeps it. */
  function Extended(log: Log, k: RunKey, e: AgentEvent, conversation: Option<string>): RunLog {
    if k in log then
      RunLog(
        if log[k].conversationId.Some? then log[k].conversationId else conversation,
        NextStatus(log[k].status, e.data),
        log[k].events + [e])
    else RunLog(conversation, NextStatus(Running, e.data), [e])
  }

  function Refusal(log: Log, p: Principal, e: AgentEvent, conversation: Option<string>): AppendResult {
    var k := KeyOf(p, e.runId);
    if k !in log then
      if e.sequence != 0 || !e.data.RunStarted? then MustStartAtZero
      else if conversation.Some? && ConversationBusy(log, p, conversation.value) then ConversationConflict
      else Stored
    else
      var run := log[k];
      if e.sequence < |run.events| then
        if run.events[e.sequence] == e then AlreadyStored else AnotherPayload
      else if conversation.Some? && run.conversationId.Some? && conversation != run.conversationId then
        OwnershipChanged
      else if !IsActive(run.status) then TerminalRun
      else if e.sequence != |run.events| then NotContiguous
      else if run.status.Waiting? && !e.data.RunResumed? && !e.data.RunFailed? then WaitingRun
      else if e.data.RunResumed? && !run.status.Waiting? then NotWaiting
      else Stored
  }

  /** Source: `append`, as a function of the log. */
  function AppendTo(log: Log, p: Principal, e: AgentEvent, conversationId: Option<string>): (Log, AppendResult) {
    var k := KeyOf(p, e.runId);
    var conversation := Conversation(conversationId);
    var result := Refusal(log, p, e, conversation);
    (if result.Stored? then log[k := Extended(log, k, e, conversation)] else log, result)
  }

  // ---- what every history of appends keeps ----

  ghost predicate RunValid(k: RunKey, r: RunLog) {
    && r.events != []
    && Accepted(r.events)
    && r.status == StatusOf(r.events)
    && forall e | e in r.events :: e.runId == k.runId
  }

  ghost predicate LogValid(log: Log) {
    forall k | k in log :: RunValid(k, log[k])
  }

  /** At most one run per tenant, user and conversation is running or waiting. */
  ghost predicate OneActiveRun(log: Log) {
    forall a, b | a in log && b in log && a != b :: !Rivals(log, a, b)
  }

  /** Two runs of one tenant and user that are both running or waiting in one conversation. */
  predicate Rivals(log: Log, a: RunKey, b: RunKey)
    requires a in log && b in log
  {
    && a.tenantId == b.tenantId && a.userId == b.userId
    && log[a].conversationId.Some? && log[a].conversationId == log[b].conversationId
    && IsActive(log[a].status) && IsActive(log[b].status)
  }

  /** One history grows into another: no event is lost or changed, no owner changes, a closed run stays as it is. */
  ghost predicate Extends(before: Log, after: Log) {
    forall k | k in before ::
      && k in after
      && before[k].events <= after[k].events
      && (before[k].conversationId.Some? ==> after[k].conversationId == before[k].conversationId)
      && (!IsActive(before[k].status) ==> after[k] == before[k])
  }

  /**
   * Whatever is stored is what the run's log accepts next, and it is added at the end of that
   * log; a refused append changes nothing at all.
   */
  lemma AppendKeepsLog(log: Log, p: Principal, e: AgentEvent, conversationId: Option<string>)
    requires LogValid(log)
    ensures var (after, r) := AppendTo(log, p, e, conversationId);
            var k := KeyOf(p, e.runId);
            && LogValid(after) && Extends(log, after)
            && if r.Stored? then
                 AcceptsNext(EventsOf(log, k), e) && k in after
                 && after == log[k := after[k]] && after[k].events == EventsOf(log, k) + [e]
               else after == log
  {
    var (after, r) := AppendTo(log, p, e, conversationId);
    var k := KeyOf(p, e.runId);
    if r.Stored? {
      ExtendedIsValid(log, k, e, Conversation(conversationId));
      forall other | other in after ensures RunValid(other, after[other]) {
        assert other != k ==> RunValid(other, log[other]);
      }
    }
  }

  lemma StoredFacts(log: Log, p: Principal, e: AgentEvent, conversationId: Option<string>)
    requires LogValid(log) && AppendTo(log, p, e, conversationId).1.Stored?
    ensures LogValid(AppendTo(log, p, e, conversationId).0)
    ensures e.sequence == |EventsOf(log, KeyOf(p, e.runId))|
  {
    AppendKeepsLog(log, p, e, conversationId);
  }

  lemma ExtendedIsValid(log: Log, k: RunKey, e: AgentEvent, conversation: Option<string>)
    requires k in log ==> RunValid(k, log[k])
    requires AcceptsNext(EventsOf(log, k), e) && e.runId == k.runId
    ensures RunValid(k, Extended(log, k, e, conversation))
    ensures Extended(log, k, e, conversation).events == EventsOf(log, k) + [e]
  {
    AcceptedSnoc(EventsOf(log, k), e);
  }

  /**
   * `append` stores an event if and only if the run's log accepts it next, its conversation
   * is free (for a new run) and its owner does not change (for a stored one).
   */
  lemma AppendStoresIff(log: Log, p: Principal, e: AgentEvent, conversationId: Option<string>)
    requires LogValid(log)
    ensures var k := KeyOf(p, e.runId);
            var c := Conversation(conversationId);
            AppendTo(log, p, e, conversationId).1.Stored? <==>
              if k in log then
                && AcceptsNext(log[k].events, e)
                && (c.Some? && log[k].conversationId.Some? ==> c == log[k].conversationId)
              else AcceptsNext([], e) && (c.Some? ==> !ConversationBusy(log, p, c.value))
  {
  }

  /**
   * Why an event is not stored. In a run that is stored, a number already taken is a replay or another
   * payload; beyond it the owner must not change, the run must be open, the number must be the next one,
   * and a resume must answer a wait. A new run must start at 0 in a conversation that is free.
   */
  lemma RefusedIff(log: Log, p: Principal, e: AgentEvent, conversationId: Option<string>)
    requires LogValid(log)
    ensures var k, c := KeyOf(p, e.runId), Conversation(conversationId);
            var r := AppendTo(log, p, e, conversationId).1;
            if k !in log then
              var starts := e.sequence == 0 && e.data.RunStarted?;
              var busy := c.Some? && ConversationBusy(log, p, c.value);
              && (r.MustStartAtZero? <==> !starts)
              && (r.ConversationConflict? <==> starts && busy)
              && (r.Stored? <==> starts && !busy)
            else
              var events, last := log[k].events, log[k].events[|log[k].events| - 1].data;
              var taken := exists x | x in events :: x.sequence == e.sequence;
              var moves := c.Some? && log[k].conversationId.Some? && c != log[k].conversationId;
              var open := !taken && !moves && !IsTerminal(last);
              && (r.AlreadyStored? <==> e in events)
              && (r.AnotherPayload? <==> taken && e !in events)
              && (r.OwnershipChanged? <==> !taken && moves)
              && (r.TerminalRun? <==> !taken && !moves && IsTerminal(last))
              && (r.NotContiguous? <==> open && e.sequence != |events|)
              && (r.WaitingRun? <==>
                    open && e.sequence == |events| && last.RunWaiting? && !e.data.RunResumed? && !e.data.RunFailed?)
              && (r.NotWaiting? <==> open && e.sequence == |events| && !last.RunWaiting? && e.data.RunResumed?)
  {
    var k := KeyOf(p, e.runId);
    if k in log {
      var events := log[k].events;
      assert RunValid(k, log[k]);
      StatusIsLast(events);
      TakenIff(events, e);
      hide Accepted, StatusOf, ConversationBusy, Conversation;
    }
  }

  lemma TakenIff(events: seq<AgentEvent>, e: AgentEvent)
    requires Accepted(events)
    ensures (exists x | x in events :: x.sequence == e.sequence) <==> e.sequence < |events|
    ensures e in events <==> e.sequence < |events| && events[e.sequence] == e
  {
    AcceptedIffShape(events);
    if e.sequence < |events| {
      assert events[e.sequence] in events;
    }
    if x :| x in events && x.sequence == e.sequence {
      var i :| 0 <= i < |events| && events[i] == x;
    }
  }

  /** Replaying any stored event changes nothing, whatever conversation it is replayed with. */
  lemma ReappendIsNoOp(log: Log, p: Principal, e: AgentEvent, conversationId: Option<string>)
    requires LogValid(log)
    requires KeyOf(p, e.runId) in log && e in log[KeyOf(p, e.runId)].events
    ensures AppendTo(log, p, e, conversationId) == (log, AlreadyStored)
  {
    var events := log[KeyOf(p, e.runId)].events;
    AcceptedIffShape(events);
    var i :| 0 <= i < |events| && events[i] == e;
    assert e.sequence == i;
  }

  /**
   * The one way to break the conversation rule: an accepted, non-terminal event of a stored run
   * that has no conversation yet brings one that another active run already holds.
   */
  predicate AttachesLate(log: Log, p: Principal, e: AgentEvent, conversationId: Option<string>) {
    var k := KeyOf(p, e.runId);
    var c := Conversation(conversationId);
    && k in log && log[k].conversationId.None? && AcceptsNext(log[k].events, e) && !IsTerminal(e.data)
    && c.Some? && ConversationBusy(log, p, c.value)
  }

  lemma OneActiveRunKeptIff(log: Log, p: Principal, e: AgentEvent, conversationId: Option<string>)
    requires LogValid(log) && OneActiveRun(log)
    ensures OneActiveRun(AppendTo(log, p, e, conversationId).0) <==> !AttachesLate(log, p, e, conversationId)
  {
    var (after, r) := AppendTo(log, p, e, conversationId);
    var k := KeyOf(p, e.runId);
    if AttachesLate(log, p, e, conversationId) {
      var other := LateAttachMakesRivals(log, p, e, conversationId);
    } else if r.Stored? {
      forall a, b | a in after && b in after && a != b ensures !Rivals(after, a, b) {
        if a == k {
          NoNewRival(log, p, e, conversationId, b);
        } else if b == k {
          NoNewRival(log, p, e, conversationId, a);
        } else {
          assert Rivals(after, a, b) == Rivals(log, a, b);
        }
      }
    }
  }

  lemma LateAttachMakesRivals(
      log: Log, p: Principal, e: AgentEvent, conversationId: Option<string>) returns (other: RunKey)
    requires LogValid(log) && AttachesLate(log, p, e, conversationId)
    ensures var (after, _) := AppendTo(log, p, e, conversationId);
            var k := KeyOf(p, e.runId);
            other != k && other in after && k in after && Rivals(after, k, other)
  {
    AppendStoresIff(log, p, e, conversationId);
    other :| other in log && Holds(log, other, p, Conversation(conversationId).value);
    ActiveAfter(log[KeyOf(p, e.runId)].status, e.data);
  }

  lemma ActiveAfter(s: RunStatus, d: EventData)
    ensures IsActive(NextStatus(s, d)) ==> !IsTerminal(d)
    ensures IsActive(s) && !IsTerminal(d) ==> IsActive(NextStatus(s, d))
  {
  }

  lemma NoNewRival(log: Log, p: Principal, e: AgentEvent, conversationId: Option<string>, other: RunKey)
    requires LogValid(log) && OneActiveRun(log) && AppendTo(log, p, e, conversationId).1.Stored?
    requires !AttachesLate(log, p, e, conversationId)
    requires other in log && other != KeyOf(p, e.runId)
    ensures !Rivals(AppendTo(log, p, e, conversationId).0, KeyOf(p, e.runId), other)
    ensures !Rivals(AppendTo(log, p, e, conversationId).0, other, KeyOf(p, e.runId))
  {
    var k := KeyOf(p, e.runId);
    var c := Conversation(conversationId);
    var run := Extended(log, k, e, c);
    AppendStoresIff(log, p, e, conversationId);
    if run.conversationId.Some? && Holds(log, other, p, run.conversationId.value) && IsActive(run.status) {
      ActiveAfter(if k in log then log[k].status else Running, e.data);
      assert k in log && log[k].conversationId.Some?;
      assert Rivals(log, k, other);
      assert false;
    }
  }

  /** A run that starts with no conversation and is given one at sequence 1 joins an active run there. */
  lemma LateAttachWitness(d: AgentEvent)
    requires d == AgentEvent("b", 1, Progress, None)
    ensures var p := Principal("t", "u");
            var log := AppendAll(map[], [
              Append(p, AgentEvent("a", 0, RunStarted, None), Some("c")),
              Append(p, AgentEvent("b", 0, RunStarted, None), None)]);
            LogValid(log) && OneActiveRun(log) && !OneActiveRun(AppendTo(log, p, d, Some("c")).0)
  {
    var p := Principal("t", "u");
    var a, b := AgentEvent("a", 0, RunStarted, None), AgentEvent("b", 0, RunStarted, None);
    var calls := [Append(p, a, Some("c")), Append(p, b, None)];
    assert calls[..1] == [calls[0]] && calls[..1][..0] == [];
    HistoryIsSafe(calls);
    var ka, kb := KeyOf(p, "a"), KeyOf(p, "b");
    assert Strip("c") == "c";
    var first := AppendTo(map[], p, a, Some("c")).0;
    assert first == map[ka := RunLog(Some("c"), Running, [a])];
    assert AppendAll(map[], calls[..1]) == first by {
      assert AppendAll(map[], calls[..1][..0]) == map[];
    }
    var log := AppendAll(map[], calls);
    assert log == AppendTo(first, p, b, None).0;
    assert Holds(log, ka, p, "c");
    assert StatusOf([b]) == Running;
    OneActiveRunKeptIff(log, p, d, Some("c"));
  }

  datatype AppendCall = Append(principal: Principal, event: AgentEvent, conversationId: Option<string>)

  function AppendAll(log: Log, calls: seq<AppendCall>): Log {
    if calls == [] then log
    else
      var c := calls[|calls| - 1];
      AppendTo(AppendAll(log, calls[..|calls| - 1]), c.principal, c.event, c.conversationId).0
  }

  /** The calling convention of `observe`: a conversation id travels with sequence 0 only. */
  ghost predicate OnlyAtStart(calls: seq<AppendCall>) {
    forall c | c in calls :: c.conversationId.Some? ==> c.event.sequence == 0
  }

  /** Over every history of appends: logs are well formed, and a conversation has at most one active run. */
  lemma {:induction false} HistoryIsSafe(calls: seq<AppendCall>)
    ensures LogValid(AppendAll(map[], calls))
    ensures OnlyAtStart(calls) ==> OneActiveRun(AppendAll(map[], calls))
  {
    if calls != [] {
      var init, c := calls[..|calls| - 1], calls[|calls| - 1];
      HistoryIsSafe(init);
      var log := AppendAll(map[], init);
      AppendKeepsLog(log, c.principal, c.event, c.conversationId);
      if OnlyAtStart(calls) {
        assert c in calls;
        OneActiveRunKeptIff(log, c.principal, c.event, c.conversationId);
      }
    }
  }

  /** Later appends never rewrite earlier history: logs only grow, and a closed run never reopens. */
  lemma {:induction false} HistoryOnlyGrows(log: Log, calls: seq<AppendCall>)
    requires LogValid(log)
    ensures LogValid(AppendAll(log, calls)) && Extends(log, AppendAll(log, calls))
  {
    if calls != [] {
      var init, c := calls[..|calls| - 1], calls[|calls| - 1];
      HistoryOnlyGrows(log, init);
      AppendKeepsLog(AppendAll(log, init), c.principal, c.event, c.conversationId);
    }
  }

  /** The calls that store a run's stream: the conversation id travels with the first event only. */
  function StreamCalls(p: Principal, events: seq<AgentEvent>, conversationId: Option<string>): (calls: seq<AppendCall>)
    ensures |calls| == |events|
  {
    seq(|events|, i requires 0 <= i < |events| => Append(p, events[i], if i == 0 then conversationId else None))
  }

  /** The log after the first `n` calls of a stream. */
  function AfterCalls(log: Log, p: Principal, events: seq<AgentEvent>, conversationId: Option<string>, n: nat): Log
    requires n <= |events|
  {
    AppendAll(log, StreamCalls(p, events, conversationId)[..n])
  }

  lemma OneCallMore(log: Log, p: Principal, events: seq<AgentEvent>, conversationId: Option<string>, n: nat)
    requires n < |events|
    ensures AfterCalls(log, p, events, conversationId, n + 1)
            == AppendTo(AfterCalls(log, p, events, conversationId, n), p, events[n],
                if n == 0 then conversationId else None).0
  {
    var calls := StreamCalls(p, events, conversationId);
    assert calls[..n + 1][..n] == calls[..n];
  }

  /** A new run's stream, in a conversation no other active run holds. */
  ghost predicate Storable(
      log: Log, p: Principal, runId: string, events: seq<AgentEvent>, conversationId: Option<string>)
  {
    && LogValid(log) && KeyOf(p, runId) !in log
    && Accepted(events) && (forall e | e in events :: e.runId == runId)
    && (Conversation(conversationId).Some? ==> !ConversationBusy(log, p, Conversation(conversationId).value))
  }

  lemma FirstIsStored(log: Log, p: Principal, runId: string, events: seq<AgentEvent>, conversationId: Option<string>)
    requires Storable(log, p, runId, events, conversationId) && events != []
    ensures AppendTo(log, p, events[0], conversationId).1.Stored?
  {
    assert events[0] in events;
    AcceptedPrefix(events, 0);
    assert events[..0] == [];
    AppendStoresIff(log, p, events[0], conversationId);
  }

  lemma NextOfStream(after: Log, p: Principal, runId: string, events: seq<AgentEvent>, n: nat)
    requires LogValid(after) && n < |events| && EventsOf(after, KeyOf(p, runId)) == events[..n]
    requires Accepted(events) && events[n].runId == runId
    ensures AppendTo(after, p, events[n], None).1.Stored?
  {
    AcceptedPrefix(events, n);
    NextIsStored(after, p, events[n]);
  }

  lemma {:induction false} StreamSoFar(
    log: Log, p: Principal, runId: string, events: seq<AgentEvent>, conversationId: Option<string>, n: nat)
    requires Storable(log, p, runId, events, conversationId) && n <= |events|
    ensures LogValid(AfterCalls(log, p, events, conversationId, n))
    ensures EventsOf(AfterCalls(log, p, events, conversationId, n), KeyOf(p, runId)) == events[..n]
  {
    if n == 0 {
      assert StreamCalls(p, events, conversationId)[..0] == [] && events[..0] == [];
    } else {
      StreamSoFar(log, p, runId, events, conversationId, n - 1);
      EachIsStored(log, p, runId, events, conversationId, n - 1);
      StreamOneMore(log, p, runId, events, conversationId, n - 1);
    }
  }

  lemma StreamOneMore(
    log: Log, p: Principal, runId: string, events: seq<AgentEvent>, conversationId: Option<string>, n: nat)
    requires n < |events| && forall e | e in events :: e.runId == runId
    requires LogValid(AfterCalls(log, p, events, conversationId, n))
    requires EventsOf(AfterCalls(log, p, events, conversationId, n), KeyOf(p, runId)) == events[..n]
    requires AppendTo(AfterCalls(log, p, events, conversationId, n), p, events[n],
             if n == 0 then conversationId else None).1.Stored?
    ensures LogValid(AfterCalls(log, p, events, conversationId, n + 1))
    ensures EventsOf(AfterCalls(log, p, events, conversationId, n + 1), KeyOf(p, runId)) == events[..n + 1]
  {
    OneCallMore(log, p, events, conversationId, n);
    assert events[n] in events;
    StreamStep(AfterCalls(log, p, events, conversationId, n), AfterCalls(log, p, events, conversationId, n + 1),
               p, runId, events, if n == 0 then conversationId else None, n);
  }

  lemma EachIsStored(
    log: Log, p: Principal, runId: string, events: seq<AgentEvent>, conversationId: Option<string>, n: nat)
    requires Storable(log, p, runId, events, conversationId) && n < |events|
    requires LogValid(AfterCalls(log, p, events, conversationId, n))
    requires EventsOf(AfterCalls(log, p, events, conversationId, n), KeyOf(p, runId)) == events[..n]
    ensures AppendTo(AfterCalls(log, p, events, conversationId, n), p, events[n],
            if n == 0 then conversationId else None).1.Stored?
  {
    if n == 0 {
      assert StreamCalls(p, events, conversationId)[..0] == [];
      FirstIsStored(log, p, runId, events, conversationId);
    } else {
      assert events[n] in events;
      NextOfStream(AfterCalls(log, p, events, conversationId, n), p, runId, events, n);
    }
  }

  /** An accepted stream of a new run in a free conversation is stored whole: no append of it is refused. */
  lemma AcceptedStreamIsStored(
    log: Log, p: Principal, runId: string, events: seq<AgentEvent>, conversationId: Option<string>, n: nat)
    requires Storable(log, p, runId, events, conversationId) && n < |events|
    ensures AppendTo(AfterCalls(log, p, events, conversationId, n), p, events[n],
            if n == 0 then conversationId else None).1.Stored?
    ensures EventsOf(AfterCalls(log, p, events, conversationId, n), KeyOf(p, runId)) == events[..n]
  {
    StreamSoFar(log, p, runId, events, conversationId, n);
    EachIsStored(log, p, runId, events, conversationId, n);
  }

  lemma StreamStep(
    log: Log, after: Log, p: Principal, runId: string, events: seq<AgentEvent>, conversationId: Option<string>, n: nat)
    requires n < |events| && events[n].runId == runId
    requires LogValid(log) && EventsOf(log, KeyOf(p, runId)) == events[..n]
    requires AppendTo(log, p, events[n], conversationId).1.Stored?
    requires after == AppendTo(log, p, events[n], conversationId).0
    ensures LogValid(after) && EventsOf(after, KeyOf(p, runId)) == events[..n + 1]
  {
    StoredAtEnd(log, p, events[n], conversationId);
    assert events[..n + 1] == events[..n] + [events[n]];
  }

  lemma StoredAtEnd(log: Log, p: Principal, e: AgentEvent, conversationId: Option<string>)
    requires LogValid(log) && AppendTo(log, p, e, conversationId).1.Stored?
    ensures LogValid(AppendTo(log, p, e, conversationId).0)
    ensures EventsOf(AppendTo(log, p, e, conversationId).0, KeyOf(p, e.runId)) == EventsOf(log, KeyOf(p, e.runId)) + [e]
  {
    AppendKeepsLog(log, p, e, conversationId);
  }

  lemma NextIsStored(log: Log, p: Principal, e: AgentEvent)
    requires LogValid(log) && AcceptsNext(EventsOf(log, KeyOf(p, e.runId)), e)
    ensures AppendTo(log, p, e, None).1.Stored?
  {
    AppendStoresIff(log, p, e, None);
  }

  // ---- replay ----

  /** The rows with a sequence above `after`, in order, at most `limit` of them. */
  function Page(events: seq<AgentEvent>, after: int, limit: nat): seq<AgentEvent> {
    var start := if after < 0 then 0 else after + 1;
    if start >= |events| then []
    else events[start..if start + limit < |events| then start + limit else |events|]
  }

  /** A page holds the events after the number given, in order and without a gap, as many as there are or may be. */
  lemma PageIs(events: seq<AgentEvent>, after: int, limit: nat)
    requires LogShape(events)
    ensures var page, first := Page(events, after, limit), if after < 0 then 0 else after + 1;
            && |page| <= limit
            && (forall i | 0 <= i < |page| :: page[i] in events && page[i].sequence == first + i)
            && (|page| < limit ==> forall e | e in events && e.sequence > after :: e in page)
  {
    hide PairFits;
    var page, first := Page(events, after, limit), if after < 0 then 0 else after + 1;
    if |page| < limit {
      forall e | e in events && e.sequence > after ensures e in page {
        var i :| 0 <= i < |events| && events[i] == e;
        assert page[i - first] == e;
      }
    }
  }

  /** A reader that asks for the page after the last sequence it has seen, until a page is empty. */
  function ReadPages(events: seq<AgentEvent>, after: int, limit: nat): seq<AgentEvent>
    requires limit > 0
    decreases |events| - (if after < 0 then -1 else after)
  {
    var page := Page(events, after, limit);
    if page == [] || page[|page| - 1].sequence <= after then page
    else page + ReadPages(events, page[|page| - 1].sequence, limit)
  }

  /** Paging from any point the reader has seen yields the rest of the log exactly once. */
  lemma {:induction false} PagingReadsTheRest(events: seq<AgentEvent>, after: int, limit: nat)
    requires LogShape(events) && limit > 0 && -1 <= after < |events|
    ensures ReadPages(events, after, limit) == events[after + 1..]
    decreases |events| - after
  {
    hide PairFits;
    var page := Page(events, after, limit);
    if page != [] {
      var last := after + |page|;
      assert page[|page| - 1] == events[last];
      PagingReadsTheRest(events, last, limit);
      assert events[after + 1..] == page + events[last + 1..];
    }
  }

  // ---- the two tables ----

  datatype RunRow = RunRow(conversationId: Option<string>, status: RunStatus)

  /** The tables hold exactly the log: one row per run, one numbered row per event. */
  ghost predicate Image(log: Log, runs: map<RunKey, RunRow>, rows: map<(RunKey, int), AgentEvent>) {
    && runs.Keys == log.Keys
    && (forall k | k in runs :: runs[k] == RunRow(log[k].conversationId, log[k].status))
    && (forall k, s :: (k, s) in rows <==> 0 <= s < |EventsOf(log, k)|)
    && (forall k, s | (k, s) in rows :: rows[(k, s)] == EventsOf(log, k)[s])
  }

  lemma ImageExtends(
      log: Log, runs: map<RunKey, RunRow>, rows: map<(RunKey, int), AgentEvent>, k: RunKey, run: RunLog, e: AgentEvent)
    requires Image(log, runs, rows)
    requires run.events == EventsOf(log, k) + [e] && e.sequence == |EventsOf(log, k)|
    ensures Image(log[k := run], runs[k := RunRow(run.conversationId, run.status)], rows[(k, e.sequence) := e])
  {
    var log', rows' := log[k := run], rows[(k, e.sequence) := e];
    forall j, s ensures (j, s) in rows' <==> 0 <= s < |EventsOf(log', j)| {
      assert (j, s) in rows' <==> (j, s) in rows || (j == k && s == e.sequence);
    }
  }

  method TakeInOrder(
      rows: map<(RunKey, int), AgentEvent>, k: RunKey, selected: set<int>, limit: nat,
      ghost events: seq<AgentEvent>, ghost start: nat)
    returns (page: seq<AgentEvent>)
    requires start <= |events|
    requires forall m :: m in selected <==> start <= m < |events|
    requires forall m | m in selected :: (k, m) in rows && rows[(k, m)] == events[m]
    ensures page == Page(events, start - 1, limit)
  {
    page := [];
    var numbers := selected;
    while numbers != {} && |page| < limit
      invariant |page| <= limit && start + |page| <= |events|
      invariant numbers <= selected
      invariant forall m :: m in numbers <==> start + |page| <= m < |events|
      invariant page == events[start..start + |page|]
      decreases numbers
    {
      assert start + |page| in numbers;
      var next :| next in numbers && forall m | m in numbers :: next <= m;
      assert next == start + |page|;
      assert events[start..next + 1] == events[start..next] + [events[next]];
      page := page + [rows[(k, next)]];
      numbers := numbers - {next};
    }
    assert numbers == {} ==> start + |page| !in numbers;
  }

  class Store {
    var runs: map<RunKey, RunRow>
    var runEvents: map<(RunKey, int), AgentEvent>
    ghost var log: Log

    ghost predicate Valid()
      reads this
    {
      LogValid(log) && Image(log, runs, runEvents)
    }

    constructor ()
      ensures Valid() && log == map[]
    {
      runs, runEvents, log := map[], map[], map[];
    }

    lemma NumbersAbove(k: RunKey, after: int, numbers: set<int>)
      requires Valid()
      requires forall m :: m in numbers <==> (k, m) in runEvents && m > after
      ensures forall m :: m in numbers <==> (if after < 0 then 0 else after + 1) <= m < |EventsOf(log, k)|
    {
    }

    /** The highest stored number, which is the length of the log less one. */
    method LastSequence(k: RunKey) returns (r: Option<int>)
      requires Valid()
      ensures r == if k in log then Some(|log[k].events| - 1) else None
    {
      var numbers := set row | row in runEvents && row.0 == k :: row.1;
      NumbersAbove(k, -1, numbers);
      assert k in log ==> log[k].events != [];
      hide Image, LogValid;
      if numbers == {} {
        assert k !in log || 0 in numbers;
        return None;
      }
      assert |EventsOf(log, k)| - 1 in numbers;
      var max :| max in numbers && forall m | m in numbers :: m <= max;
      return Some(max);
    }

    method Status(k: RunKey) returns (r: Option<RunStatus>)
      requires Valid()
      ensures r == if k in log then Some(StatusOf(log[k].events)) else None
    {
      r := if k in runs then Some(runs[k].status) else None;
    }

    /** Fails exactly when the conversation holds a running or waiting run. */
    method EnsureConversationAvailable(p: Principal, conversation: string) returns (available: bool)
      requires Valid()
      ensures available <==> !ConversationBusy(log, p, conversation)
    {
      var busy := exists k | k in runs ::
        k.tenantId == p.tenantId && k.userId == p.userId &&
        runs[k].conversationId == Some(conversation) && IsActive(runs[k].status);
      if busy {
        var k :| k in runs && k.tenantId == p.tenantId && k.userId == p.userId &&
          runs[k].conversationId == Some(conversation) && IsActive(runs[k].status);
        assert Holds(log, k, p, conversation);
      }
      return !busy;
    }

    /** The row-by-row checks and the two inserts. */
    method Append(p: Principal, e: AgentEvent, conversationId: Option<string>) returns (r: AppendResult)
      requires Valid()
      modifies this
      ensures Valid() && (log, r) == AppendTo(old(log), p, e, conversationId)
    {
      var conversation := Conversation(conversationId);
      var key := KeyOf(p, e.runId);
      r := Check(p, e, conversation);
      if r.Stored? {
        StoredFacts(log, p, e, conversationId);
        var row := if key in runs then runs[key] else RunRow(None, Running);
        var owner := if row.conversationId.Some? then row.conversationId else conversation;
        ImageExtends(log, runs, runEvents, key, Extended(log, key, e, conversation), e);
        runs := runs[key := RunRow(owner, NextStatus(row.status, e.data))];
        runEvents := runEvents[(key, e.sequence) := e];
        log := AppendTo(log, p, e, conversationId).0;
      }
    }

    method Check(p: Principal, e: AgentEvent, conversation: Option<string>) returns (r: AppendResult)
      requires Valid()
      ensures r == Refusal(log, p, e, conversation)
    {
      var key := KeyOf(p, e.runId);
      assert key in log ==> RunValid(key, log[key]);
      if (key, e.sequence) in runEvents {
        return if runEvents[(key, e.sequence)] == e then AlreadyStored else AnotherPayload;
      }
      if key !in runs {
        if e.sequence != 0 || !e.data.RunStarted? {
          return MustStartAtZero;
        }
        if conversation.Some? {
          var available := EnsureConversationAvailable(p, conversation.value);
          if !available {
            return ConversationConflict;
          }
        }
        return Stored;
      }
      var row := runs[key];
      var max := LastSequence(key);
      if conversation.Some? && row.conversationId.Some? && conversation != row.conversationId {
        return OwnershipChanged;
      }
      if !IsActive(row.status) {
        return TerminalRun;
      }
      if e.sequence != max.value + 1 {
        return NotContiguous;
      }
      if row.status.Waiting? && !e.data.RunResumed? && !e.data.RunFailed? {
        return WaitingRun;
      }
      if e.data.RunResumed? && !row.status.Waiting? {
        return NotWaiting;
      }
      return Stored;
    }

    /** The rows above the given number, by number, at most so many of them. */
    method Replay(k: RunKey, after: int, limit: nat) returns (page: seq<AgentEvent>)
      requires Valid()
      ensures page == Page(EventsOf(log, k), after, limit)
    {
      var numbers := set row | row in runEvents && row.0 == k && row.1 > after :: row.1;
      NumbersAbove(k, after, numbers);
      ghost var n := |EventsOf(log, k)|;
      page := TakeInOrder(runEvents, k, numbers, limit, EventsOf(log, k),
        if after < 0 then 0 else if after < n then after + 1 else n);
    }
  }
}
