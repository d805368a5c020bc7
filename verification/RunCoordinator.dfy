/**
 * Concurrent `observe` streams racing for conversations and runs. Each lock section and
 * each store write is one atomic step; every other point may be interleaved with any
 * step of any other stream, and a stream may be abandoned at any point inside its `try`.
 */
module RunCoordinator {
  import opened AgentModels
  import opened Outcomes
  import opened RunEventStore

  type TaskId = nat

  datatype ConversationKey = ConversationKey(tenantId: string, userId: string, conversation: string)

  datatype Phase =
    | Entering                     // `observe` was called
    | Streaming                    // inside the try, waiting for the next event
    | Claiming(event: AgentEvent)  // first event in hand, run slot not taken yet
    | Appending(event: AgentEvent)
    | Yielding(event: AgentEvent)  // stored, not yet handed to the consumer
    | LeavingRun                   // finally: release the run slot
    | LeavingConversation          // finally: release the reservation
    | Gone

  predicate InTry(ph: Phase) {
    ph.Streaming? || ph.Claiming? || ph.Appending? || ph.Yielding?
  }

  /** Where a stream that took a run slot can be: a claim comes once, before the first event is stored. */
  predicate Holding(ph: Phase) {
    ph.Streaming? || ph.Appending? || ph.Yielding? || ph.LeavingRun?
  }

  datatype Observer = Observer(
    task: TaskId,
    principal: Principal,
    conversationId: Option<string>,
    existingRun: bool,
    phase: Phase,
    key: Option<RunKey>,
    claimed: bool,
    yielded: seq<AgentEvent>)
  {
    /** The key this stream reserves before its try; an existing run reserves none. */
    function Reservation(): Option<ConversationKey> {
      if conversationId.Some? && !existingRun then
        Some(ConversationKey(principal.tenantId, principal.userId, Strip(conversationId.value)))
      else None
    }

    predicate Reserving() {
      Reservation().Some? && (InTry(phase) || phase.LeavingRun? || phase.LeavingConversation?)
    }

    predicate Reserves(c: ConversationKey) {
      Reserving() && Reservation() == Some(c)
    }

    predicate Owns(k: RunKey) {
      claimed && key == Some(k)
    }
  }

  datatype State = State(
    log: Log,
    active: map<RunKey, TaskId>,
    reservations: map<ConversationKey, TaskId>,
    observers: map<nat, Observer>)

  datatype Act =
    | Observe(id: nat, task: TaskId, principal: Principal, conversationId: Option<string>, existingRun: bool)
    | Reserve(id: nat)
    | Receive(id: nat, event: AgentEvent)
    | Claim(id: nat)
    | Store(id: nat)
    | Yield(id: nat)
    | Leave(id: nat)
    | ReleaseRun(id: nat)
    | ReleaseConversation(id: nat)
    | AppendOutside(principal: Principal, event: AgentEvent)

  // ---- the lock sections, on the two dictionaries ----

  predicate MayReserve(s: State, c: ConversationKey, p: Principal) {
    c !in s.reservations && !ConversationBusy(s.log, p, c.conversation)
  }

  function Without<K, V(==)>(m: map<K, V>, k: K, v: V): map<K, V> {
    if k in m && m[k] == v then m - {k} else m
  }

  function Set(s: State, id: nat, o: Observer): State {
    s.(observers := s.observers[id := o])
  }

  function ConversationToStore(o: Observer, e: AgentEvent): Option<string> {
    if e.sequence == 0 then o.conversationId else None
  }

  /** One atomic step; an act that its phase does not allow leaves the state alone. */
  function Step(s: State, a: Act): State {
    match a
    case AppendOutside(p, e) => s.(log := AppendTo(s.log, p, e, None).0)
    case Observe(id, task, p, conversationId, existing) =>
      if id in s.observers then s
      else Set(s, id, Observer(task, p, conversationId, existing, Entering, None, false, []))
    case _ =>
      if a.id !in s.observers then s else StepObserver(s, a, s.observers[a.id])
  }

  function StepObserver(s: State, a: Act, o: Observer): State
    requires !a.AppendOutside? && !a.Observe?
  {
    match a
    case Reserve(id) => if o.phase.Entering? then AfterReserve(s, id, o) else s
    case Receive(id, e) => if o.phase.Streaming? then Set(s, id, AfterReceive(o, e)) else s
    case Claim(id) => if o.phase.Claiming? then AfterClaim(s, id, o) else s
    case Store(id) => if o.phase.Appending? then AfterStore(s, id, o, o.phase.event) else s
    case Yield(id) =>
      if o.phase.Yielding? then Set(s, id, o.(phase := Streaming, yielded := o.yielded + [o.phase.event])) else s
    case Leave(id) => if InTry(o.phase) then Set(s, id, o.(phase := LeavingRun)) else s
    case ReleaseRun(id) => if o.phase.LeavingRun? then AfterReleaseRun(s, id, o) else s
    case ReleaseConversation(id) => if o.phase.LeavingConversation? then AfterReleaseConversation(s, id, o) else s
  }

  function AfterReserve(s: State, id: nat, o: Observer): State {
    var c := o.Reservation();
    if c.None? then Set(s, id, o.(phase := Streaming))
    else if MayReserve(s, c.value, o.principal) then
      Set(s.(reservations := s.reservations[c.value := o.task]), id, o.(phase := Streaming))
    else Set(s, id, o.(phase := Gone))
  }

  /** The first event fixes the key, before the slot is known to be free. */
  function AfterReceive(o: Observer, e: AgentEvent): Observer {
    var candidate := KeyOf(o.principal, e.runId);
    if o.key.None? then o.(key := Some(candidate), phase := Claiming(e))
    else o.(phase := if o.key == Some(candidate) then Appending(e) else LeavingRun)
  }

  function AfterClaim(s: State, id: nat, o: Observer): State
    requires o.phase.Claiming?
  {
    if o.key.Some? && o.key.value !in s.active then
      Set(s.(active := s.active[o.key.value := o.task]), id, o.(phase := Appending(o.phase.event), claimed := true))
    else Set(s, id, o.(phase := LeavingRun))
  }

  function AfterStore(s: State, id: nat, o: Observer, e: AgentEvent): State {
    var result := AppendTo(s.log, o.principal, e, ConversationToStore(o, e));
    Set(s.(log := result.0), id,
        o.(phase := if result.1.Stored? || result.1.AlreadyStored? then Yielding(e) else LeavingRun))
  }

  function AfterReleaseRun(s: State, id: nat, o: Observer): State {
    Set(s.(active := if o.key.Some? then Without(s.active, o.key.value, o.task) else s.active),
        id, o.(phase := LeavingConversation, claimed := false))
  }

  function AfterReleaseConversation(s: State, id: nat, o: Observer): State {
    var c := o.Reservation();
    Set(s.(reservations := if c.Some? then Without(s.reservations, c.value, o.task) else s.reservations),
        id, o.(phase := Gone))
  }

  /**
   * What the callers promise: every stream runs in its own task, and a resumed run restarts
   * at the number after the last stored one, so it never sends sequence 0.
   */
  ghost predicate Lawful(s: State, a: Act) {
    && (a.Observe? ==> forall i | i in s.observers && !s.observers[i].phase.Gone? :: s.observers[i].task != a.task)
    && (a.Receive? && a.id in s.observers && s.observers[a.id].existingRun ==> a.event.sequence > 0)
  }

  // ---- the invariant ----

  /** A stream that believes it owns a slot finds its own task there. */
  predicate Backed(o: Observer, active: map<RunKey, TaskId>, reservations: map<ConversationKey, TaskId>) {
    && (o.claimed ==>
          Holding(o.phase) && o.key.Some? && o.key.value in active && active[o.key.value] == o.task)
    && (o.Reserving() ==> o.Reservation().value in reservations && reservations[o.Reservation().value] == o.task)
  }

  ghost predicate OwnTasks(observers: map<nat, Observer>) {
    forall i, j | i in observers && j in observers && i != j && !observers[i].phase.Gone?
        && !observers[j].phase.Gone? ::
      observers[i].task != observers[j].task
  }

  ghost predicate AllBacked(
      observers: map<nat, Observer>, active: map<RunKey, TaskId>, reservations: map<ConversationKey, TaskId>)
  {
    forall i | i in observers :: Backed(observers[i], active, reservations)
  }

  ghost predicate ActiveOwned(observers: map<nat, Observer>, active: map<RunKey, TaskId>) {
    forall k | k in active :: exists i | i in observers :: observers[i].Owns(k)
  }

  ghost predicate ReservationsOwned(observers: map<nat, Observer>, reservations: map<ConversationKey, TaskId>) {
    forall c | c in reservations :: exists i | i in observers :: observers[i].Reserves(c)
  }

  ghost predicate Slots(
      observers: map<nat, Observer>, active: map<RunKey, TaskId>, reservations: map<ConversationKey, TaskId>)
  {
    && OwnTasks(observers) && AllBacked(observers, active, reservations)
    && ActiveOwned(observers, active) && ReservationsOwned(observers, reservations)
  }

  /** A run that is active in a reserved conversation can only be the reserving stream's own run. */
  ghost predicate ReservedIsOwn(log: Log, o: Observer) {
    o.Reserving() ==> forall k | Holds(log, k, o.principal, o.Reservation().value.conversation) :: o.key == Some(k)
  }

  ghost predicate InLog(log: Log, p: Principal, e: AgentEvent) {
    KeyOf(p, e.runId) in log && e in log[KeyOf(p, e.runId)].events
  }

  predicate EventFits(o: Observer, e: AgentEvent) {
    o.key == Some(KeyOf(o.principal, e.runId)) && (o.existingRun ==> e.sequence > 0)
  }

  ghost predicate ObserverFits(log: Log, o: Observer) {
    && (o.phase.Claiming? || o.phase.Appending? || o.phase.Yielding? ==> EventFits(o, o.phase.event))
    && (o.phase.Yielding? ==> InLog(log, o.principal, o.phase.event))
    && (forall e | e in o.yielded :: InLog(log, o.principal, e))
  }

  ghost predicate Logs(log: Log, observers: map<nat, Observer>) {
    forall i | i in observers :: ObserverFits(log, observers[i]) && ReservedIsOwn(log, observers[i])
  }

  ghost predicate Inv(s: State) {
    && LogValid(s.log) && OneActiveRun(s.log)
    && Slots(s.observers, s.active, s.reservations)
    && Logs(s.log, s.observers)
  }

  const START: State := State(map[], map[], map[], map[])

  function Perform(s: State, acts: seq<Act>): State {
    if acts == [] then s else Step(Perform(s, acts[..|acts| - 1]), acts[|acts| - 1])
  }

  ghost predicate AllLawful(s: State, acts: seq<Act>) {
    acts == [] || (AllLawful(s, acts[..|acts| - 1]) && Lawful(Perform(s, acts[..|acts| - 1]), acts[|acts| - 1]))
  }

  // ---- appends seen by the reservations ----

  /** An append that brings a conversation only with sequence 0 activates at most one run, a new one. */
  lemma AppendHolders(
      log: Log, p: Principal, e: AgentEvent, conversationId: Option<string>, k: RunKey, q: Principal, c: string)
    requires LogValid(log) && (conversationId.Some? ==> e.sequence == 0)
    requires Holds(AppendTo(log, p, e, conversationId).0, k, q, c)
    ensures Holds(log, k, q, c)
         || (k == KeyOf(p, e.runId) && k !in log && p == q && Conversation(conversationId) == Some(c)
             && conversationId.Some? && Strip(conversationId.value) == c)
  {
    AppendKeepsLog(log, p, e, conversationId);
    AppendStoresIff(log, p, e, conversationId);
  }

  lemma AppendKeepsLogs(log: Log, p: Principal, e: AgentEvent, conversationId: Option<string>)
    requires LogValid(log) && OneActiveRun(log) && (conversationId.Some? ==> e.sequence == 0)
    ensures var (after, r) := AppendTo(log, p, e, conversationId);
            && LogValid(after) && OneActiveRun(after) && Extends(log, after)
            && (r.Stored? || r.AlreadyStored? ==> InLog(after, p, e))
  {
    AppendKeepsLog(log, p, e, conversationId);
    OneActiveRunKeptIff(log, p, e, conversationId);
  }

  lemma LogGrows(before: Log, after: Log, o: Observer)
    requires Extends(before, after) && ObserverFits(before, o)
    ensures ObserverFits(after, o)
  {
    forall e | InLog(before, o.principal, e) ensures InLog(after, o.principal, e) {
      var k := KeyOf(o.principal, e.runId);
      assert before[k].events <= after[k].events;
    }
  }

  /** A stream that won its reservation never meets a conversation conflict when it stores an event. */
  lemma NeverConflicts(s: State, id: nat)
    requires Inv(s) && id in s.observers && s.observers[id].phase.Appending?
    ensures var o := s.observers[id];
            var e := o.phase.event;
            !AppendTo(s.log, o.principal, e, ConversationToStore(o, e)).1.ConversationConflict?
  {
    var o := s.observers[id];
    var e := o.phase.event;
    var c := Conversation(ConversationToStore(o, e));
    if c.Some? && ConversationBusy(s.log, o.principal, c.value) {
      var k :| k in s.log && Holds(s.log, k, o.principal, c.value);
      assert o.Reserves(o.Reservation().value);
      assert o.key == Some(k);
    }
  }

  // ---- every step keeps the invariant ----

  lemma BackedUpdate(
      observers: map<nat, Observer>, active: map<RunKey, TaskId>, reservations: map<ConversationKey, TaskId>,
      id: nat, o: Observer, active': map<RunKey, TaskId>, reservations': map<ConversationKey, TaskId>)
    requires OwnTasks(observers) && AllBacked(observers, active, reservations) && id in observers
    requires !observers[id].phase.Gone? && Backed(o, active', reservations')
    requires forall k | k in active :: observers[id].Owns(k) || (k in active' && active'[k] == active[k])
    requires forall c | c in reservations ::
               observers[id].Reserves(c) || (c in reservations' && reservations'[c] == reservations[c])
    ensures AllBacked(observers[id := o], active', reservations')
  {
    forall i | i in observers && i != id ensures Backed(observers[i], active', reservations') {
      assert Backed(observers[i], active, reservations) && Backed(observers[id], active, reservations);
    }
  }

  lemma ActiveUpdate(
      observers: map<nat, Observer>, active: map<RunKey, TaskId>, id: nat, o: Observer, active': map<RunKey, TaskId>)
    requires ActiveOwned(observers, active) && id in observers
    requires forall k | k in active' :: o.Owns(k) || (k in active && !observers[id].Owns(k))
    ensures ActiveOwned(observers[id := o], active')
  {
    var observers' := observers[id := o];
    forall k | k in active' ensures exists i | i in observers' :: observers'[i].Owns(k) {
      if o.Owns(k) {
        assert observers'[id].Owns(k);
      } else {
        var i :| i in observers && observers[i].Owns(k);
        assert observers'[i].Owns(k);
      }
    }
  }

  lemma ReservationsUpdate(
      observers: map<nat, Observer>, reservations: map<ConversationKey, TaskId>, id: nat, o: Observer,
      reservations': map<ConversationKey, TaskId>)
    requires ReservationsOwned(observers, reservations) && id in observers
    requires forall c | c in reservations' :: o.Reserves(c) || (c in reservations && !observers[id].Reserves(c))
    ensures ReservationsOwned(observers[id := o], reservations')
  {
    var observers' := observers[id := o];
    forall c | c in reservations' ensures exists i | i in observers' :: observers'[i].Reserves(c) {
      if o.Reserves(c) {
        assert observers'[id].Reserves(c);
      } else {
        var i :| i in observers && observers[i].Reserves(c);
        assert observers'[i].Reserves(c);
      }
    }
  }

  /** A stream may change only the slots it owns, and what it adds it owns afterwards. */
  lemma SlotsUpdate(
      observers: map<nat, Observer>, active: map<RunKey, TaskId>, reservations: map<ConversationKey, TaskId>,
      id: nat, o: Observer, active': map<RunKey, TaskId>, reservations': map<ConversationKey, TaskId>)
    requires Slots(observers, active, reservations) && id in observers
    requires o.task == observers[id].task && !observers[id].phase.Gone? && Backed(o, active', reservations')
    requires forall k | k in active :: observers[id].Owns(k) || (k in active' && active'[k] == active[k])
    requires forall k | k in active' :: o.Owns(k) || (k in active && !observers[id].Owns(k))
    requires forall c | c in reservations ::
               observers[id].Reserves(c) || (c in reservations' && reservations'[c] == reservations[c])
    requires forall c | c in reservations' :: o.Reserves(c) || (c in reservations && !observers[id].Reserves(c))
    ensures Slots(observers[id := o], active', reservations')
  {
    assert OwnTasks(observers[id := o]);
    hide OwnTasks, AllBacked, Backed, ActiveOwned, ReservationsOwned;
    BackedUpdate(observers, active, reservations, id, o, active', reservations');
    ActiveUpdate(observers, active, id, o, active');
    ReservationsUpdate(observers, reservations, id, o, reservations');
  }

  /** A slot that holds a stream's task is that stream's slot. */
  lemma OwnSlot(s: State, id: nat)
    requires Slots(s.observers, s.active, s.reservations) && id in s.observers && !s.observers[id].phase.Gone?
    ensures var o := s.observers[id];
            && (forall k | k in s.active && s.active[k] == o.task :: o.Owns(k))
            && (forall c | c in s.reservations && s.reservations[c] == o.task :: o.Reserves(c))
  {
    var o := s.observers[id];
    forall k | k in s.active && s.active[k] == o.task ensures o.Owns(k) {
      var i :| i in s.observers && s.observers[i].Owns(k);
      assert Backed(s.observers[i], s.active, s.reservations);
    }
    forall c | c in s.reservations && s.reservations[c] == o.task ensures o.Reserves(c) {
      var i :| i in s.observers && s.observers[i].Reserves(c);
      assert Backed(s.observers[i], s.active, s.reservations);
    }
  }

  ghost predicate SlotsKept(s: State, s': State) {
    Slots(s.observers, s.active, s.reservations) ==> Slots(s'.observers, s'.active, s'.reservations)
  }

  lemma QuietSlots(s: State, id: nat, o: Observer)
    requires id in s.observers && !s.observers[id].phase.Gone? && !o.phase.Gone? && o.task == s.observers[id].task
    requires o.Reserving() == s.observers[id].Reserving() && o.Reservation() == s.observers[id].Reservation()
    requires o.claimed == s.observers[id].claimed && (o.claimed ==> o.key == s.observers[id].key)
    requires o.claimed && o.key.Some? ==> Holding(o.phase)
    ensures SlotsKept(s, s.(observers := s.observers[id := o]))
  {
    if Slots(s.observers, s.active, s.reservations) {
      assert Backed(s.observers[id], s.active, s.reservations);
      SlotsUpdate(s.observers, s.active, s.reservations, id, o, s.active, s.reservations);
    }
  }

  lemma ReserveSlots(s: State, id: nat)
    ensures SlotsKept(s, Step(s, Reserve(id)))
  {
    if id in s.observers && s.observers[id].phase.Entering? && Slots(s.observers, s.active, s.reservations) {
      var o := s.observers[id];
      var c := o.Reservation();
      assert Backed(o, s.active, s.reservations);
      if c.None? {
        QuietSlots(s, id, o.(phase := Streaming));
      } else if MayReserve(s, c.value, o.principal) {
        TakeReservation(s.observers, s.active, s.reservations, id, c.value);
      } else {
        SlotsUpdate(s.observers, s.active, s.reservations, id, o.(phase := Gone), s.active, s.reservations);
      }
    }
  }

  lemma TakeReservation(
      observers: map<nat, Observer>, active: map<RunKey, TaskId>, reservations: map<ConversationKey, TaskId>,
      id: nat, c: ConversationKey)
    requires Slots(observers, active, reservations) && id in observers && observers[id].phase.Entering?
    requires observers[id].Reservation() == Some(c) && c !in reservations
    ensures Slots(observers[id := observers[id].(phase := Streaming)], active, reservations[c := observers[id].task])
  {
    assert Backed(observers[id], active, reservations);
    SlotsUpdate(observers, active, reservations, id, observers[id].(phase := Streaming),
                active, reservations[c := observers[id].task]);
  }

  lemma ClaimSlots(s: State, id: nat)
    ensures SlotsKept(s, Step(s, Claim(id)))
  {
    if id in s.observers && s.observers[id].phase.Claiming? && Slots(s.observers, s.active, s.reservations) {
      var o := s.observers[id];
      assert Backed(o, s.active, s.reservations);
      if o.key.Some? && o.key.value !in s.active {
        TakeSlot(s.observers, s.active, s.reservations, id, o.key.value);
      } else {
        hide OwnTasks, AllBacked, ActiveOwned, ReservationsOwned, Backed;
        QuietSlots(s, id, o.(phase := LeavingRun));
      }
    }
  }

  lemma TakeSlot(
      observers: map<nat, Observer>, active: map<RunKey, TaskId>, reservations: map<ConversationKey, TaskId>,
      id: nat, k: RunKey)
    requires Slots(observers, active, reservations) && id in observers && observers[id].phase.Claiming?
    requires observers[id].key == Some(k) && k !in active
    ensures Slots(observers[id := observers[id].(phase := Appending(observers[id].phase.event), claimed := true)],
                  active[k := observers[id].task], reservations)
  {
    var o := observers[id].(phase := Appending(observers[id].phase.event), claimed := true);
    assert Backed(observers[id], active, reservations);
    assert o.Reserving() == observers[id].Reserving() && o.Reservation() == observers[id].Reservation();
    hide OwnTasks, AllBacked, ActiveOwned, ReservationsOwned;
    SlotsUpdate(observers, active, reservations, id, o, active[k := observers[id].task], reservations);
  }

  lemma ReleaseRunSlots(s: State, id: nat)
    ensures SlotsKept(s, Step(s, ReleaseRun(id)))
  {
    var s' := Step(s, ReleaseRun(id));
    if s' != s && Slots(s.observers, s.active, s.reservations) {
      OwnSlot(s, id);
      assert Backed(s.observers[id], s.active, s.reservations);
      hide OwnTasks, AllBacked, ActiveOwned, ReservationsOwned;
      SlotsUpdate(s.observers, s.active, s.reservations, id, s'.observers[id], s'.active, s'.reservations);
    }
  }

  lemma ReleaseConversationSlots(s: State, id: nat)
    ensures SlotsKept(s, Step(s, ReleaseConversation(id)))
  {
    var s' := Step(s, ReleaseConversation(id));
    if s' != s && Slots(s.observers, s.active, s.reservations) {
      OwnSlot(s, id);
      assert Backed(s.observers[id], s.active, s.reservations);
      hide OwnTasks, AllBacked, ActiveOwned, ReservationsOwned;
      SlotsUpdate(s.observers, s.active, s.reservations, id, s'.observers[id], s'.active, s'.reservations);
    }
  }

  /** A stream that enters owns nothing yet, and takes nothing from the others. */
  lemma NewStreamSlots(
      observers: map<nat, Observer>, active: map<RunKey, TaskId>, reservations: map<ConversationKey, TaskId>,
      id: nat, o: Observer)
    requires Slots(observers, active, reservations) && id !in observers && o.phase.Entering? && !o.claimed
    requires forall i | i in observers && !observers[i].phase.Gone? :: observers[i].task != o.task
    ensures Slots(observers[id := o], active, reservations)
  {
    NewStreamOwned(observers, active, reservations, id, o);
    assert OwnTasks(observers[id := o]);
    hide OwnTasks, ActiveOwned, ReservationsOwned;
    assert Backed(o, active, reservations);
    hide Backed;
  }

  lemma NewStreamOwned(
      observers: map<nat, Observer>, active: map<RunKey, TaskId>, reservations: map<ConversationKey, TaskId>,
      id: nat, o: Observer)
    requires ActiveOwned(observers, active) && ReservationsOwned(observers, reservations) && id !in observers
    ensures ActiveOwned(observers[id := o], active) && ReservationsOwned(observers[id := o], reservations)
  {
    hide Observer.Owns, Observer.Reserves;
    var observers' := observers[id := o];
    forall k | k in active ensures exists i | i in observers' :: observers'[i].Owns(k) {
      var i :| i in observers && observers[i].Owns(k);
      assert observers'[i].Owns(k);
    }
    forall c | c in reservations ensures exists i | i in observers' :: observers'[i].Reserves(c) {
      var i :| i in observers && observers[i].Reserves(c);
      assert observers'[i].Reserves(c);
    }
  }

  lemma ObserveSlots(s: State, a: Act)
    requires a.Observe? && Lawful(s, a)
    ensures SlotsKept(s, Step(s, a))
  {
    var s' := Step(s, a);
    if s' != s && Slots(s.observers, s.active, s.reservations) {
      hide Slots;
      NewStreamSlots(s.observers, s.active, s.reservations, a.id, s'.observers[a.id]);
    }
  }

  lemma OtherSlots(s: State, a: Act)
    requires a.Receive? || a.Store? || a.Yield? || a.Leave?
    ensures SlotsKept(s, Step(s, a))
  {
    hide AppendTo, KeyOf, ConversationToStore;
    var s' := Step(s, a);
    if s' != s && Slots(s.observers, s.active, s.reservations) {
      var o, o' := s.observers[a.id], s'.observers[a.id];
      assert Backed(o, s.active, s.reservations);
      assert o'.Reservation() == o.Reservation() && o'.Reserving() == o.Reserving();
      hide OwnTasks, AllBacked, ActiveOwned, ReservationsOwned, Backed, Observer.Reservation, Observer.Reserving, Strip;
      QuietSlots(s, a.id, o');
    }
  }

  lemma StepKeepsSlots(s: State, a: Act)
    requires Lawful(s, a)
    ensures SlotsKept(s, Step(s, a))
  {
    hide AppendTo, StepObserver;
    match a
    case Reserve(id) => ReserveSlots(s, id);
    case Claim(id) => ClaimSlots(s, id);
    case ReleaseRun(id) => ReleaseRunSlots(s, id);
    case ReleaseConversation(id) => ReleaseConversationSlots(s, id);
    case Observe(_, _, _, _, _) => ObserveSlots(s, a);
    case AppendOutside(_, _) =>
    case _ => OtherSlots(s, a);
  }

  // the logs

  /** Storing an event can only activate the storing stream's own run in a reserved conversation. */
  lemma ReservedIsOwnKept(
      s: State, i: nat, p: Principal, e: AgentEvent, conversationId: Option<string>, owner: Option<nat>)
    requires Inv(s) && i in s.observers && (conversationId.Some? ==> e.sequence == 0)
    requires conversationId.Some? ==>
               && owner.Some? && owner.value in s.observers && InTry(s.observers[owner.value].phase)
               && s.observers[owner.value].conversationId == conversationId && !s.observers[owner.value].existingRun
               && s.observers[owner.value].principal == p && s.observers[owner.value].key == Some(KeyOf(p, e.runId))
    ensures ReservedIsOwn(AppendTo(s.log, p, e, conversationId).0, s.observers[i])
  {
    var log := AppendTo(s.log, p, e, conversationId).0;
    var o := s.observers[i];
    if o.Reserving() {
      var c := o.Reservation().value;
      forall k | Holds(log, k, o.principal, c.conversation) ensures o.key == Some(k) {
        AppendHolders(s.log, p, e, conversationId, k, o.principal, c.conversation);
        assert ReservedIsOwn(s.log, o);
        if !Holds(s.log, k, o.principal, c.conversation) {
          var w := s.observers[owner.value];
          assert w.Reserves(c) && o.Reserves(c);
          assert Backed(w, s.active, s.reservations) && Backed(o, s.active, s.reservations);
          assert owner.value == i;
        }
      }
    }
  }

  lemma LogsUpdate(log: Log, observers: map<nat, Observer>, id: nat, o: Observer)
    requires Logs(log, observers) && ObserverFits(log, o) && ReservedIsOwn(log, o)
    ensures Logs(log, observers[id := o])
  {
  }

  lemma LogsAfterAppend(s: State, p: Principal, e: AgentEvent, conversationId: Option<string>, owner: Option<nat>)
    requires Inv(s) && (conversationId.Some? ==> e.sequence == 0)
    requires conversationId.Some? ==>
               && owner.Some? && owner.value in s.observers && InTry(s.observers[owner.value].phase)
               && s.observers[owner.value].conversationId == conversationId && !s.observers[owner.value].existingRun
               && s.observers[owner.value].principal == p && s.observers[owner.value].key == Some(KeyOf(p, e.runId))
    ensures var (log, r) := AppendTo(s.log, p, e, conversationId);
            && LogValid(log) && OneActiveRun(log) && Extends(s.log, log) && Logs(log, s.observers)
            && (r.Stored? || r.AlreadyStored? ==> InLog(log, p, e))
  {
    var log := AppendTo(s.log, p, e, conversationId).0;
    AppendKeepsLogs(s.log, p, e, conversationId);
    forall i | i in s.observers ensures ObserverFits(log, s.observers[i]) && ReservedIsOwn(log, s.observers[i]) {
      LogGrows(s.log, log, s.observers[i]);
      ReservedIsOwnKept(s, i, p, e, conversationId, owner);
    }
  }

  ghost predicate LogsKept(s: State, s': State) {
    Inv(s) ==> LogValid(s'.log) && OneActiveRun(s'.log) && Extends(s.log, s'.log) && Logs(s'.log, s'.observers)
  }

  lemma StoreKeepsLogs(s: State, id: nat)
    ensures LogsKept(s, Step(s, Store(id)))
  {
    hide LogValid, OneActiveRun;
    if Inv(s) && id in s.observers && s.observers[id].phase.Appending? {
      var o := s.observers[id];
      var e := o.phase.event;
      assert ObserverFits(s.log, o);
      LogsAfterAppend(s, o.principal, e, ConversationToStore(o, e), Some(id));
      var s' := AfterStore(s, id, o, e);
      assert ObserverFits(s'.log, o) && ReservedIsOwn(s'.log, o);
      LogsUpdate(s'.log, s.observers, id, s'.observers[id]);
    }
  }

  lemma ReserveKeepsLogs(s: State, id: nat)
    ensures LogsKept(s, Step(s, Reserve(id)))
  {
    if Inv(s) && id in s.observers && s.observers[id].phase.Entering? {
      var o := s.observers[id];
      var c := o.Reservation();
      assert ObserverFits(s.log, o);
      var o' := o.(phase := if c.None? || MayReserve(s, c.value, o.principal) then Streaming else Gone);
      if o'.Reserving() {
        assert !ConversationBusy(s.log, o.principal, c.value.conversation);
      }
      LogsUpdate(s.log, s.observers, id, o');
    }
  }

  lemma StepKeepsLogs(s: State, a: Act)
    requires Lawful(s, a)
    ensures LogsKept(s, Step(s, a))
  {
    if Inv(s) {
      match a
      case AppendOutside(p, e) => LogsAfterAppend(s, p, e, None, None);
      case Store(id) => StoreKeepsLogs(s, id);
      case Reserve(id) => ReserveKeepsLogs(s, id);
      case Observe(id, task, p, conversationId, existing) =>
        LogsUpdate(s.log, s.observers, id, Observer(task, p, conversationId, existing, Entering, None, false, []));
      case _ =>
        if a.id in s.observers {
          OtherKeepsLogs(s, a, s.observers[a.id]);
        }
    }
  }

  /** A stream that neither stores nor reserves keeps its key, or sets it for the first time. */
  lemma OtherKeepsLogs(s: State, a: Act, o: Observer)
    requires Lawful(s, a) && LogValid(s.log) && OneActiveRun(s.log) && Logs(s.log, s.observers)
    requires !a.AppendOutside? && !a.Store? && !a.Reserve? && !a.Observe? && a.id in s.observers
             && o == s.observers[a.id]
    ensures LogsKept(s, Step(s, a))
  {
    var s' := Step(s, a);
    if s' != s {
      OneObserverMoves(s, a, o);
      assert ObserverFits(s.log, o) && ReservedIsOwn(s.log, o);
      MovedObserverFits(s, a, o);
      hide Step, ObserverFits, ReservedIsOwn, LogValid, OneActiveRun;
      LogsUpdate(s.log, s.observers, a.id, s'.observers[a.id]);
    }
  }

  // Apart from the two dictionaries, a step that does not store changes its own stream only.
  lemma OneObserverMoves(s: State, a: Act, o: Observer)
    requires !a.AppendOutside? && !a.Store? && !a.Reserve? && !a.Observe? && a.id in s.observers
             && o == s.observers[a.id]
    requires Step(s, a) != s
    ensures a.id in Step(s, a).observers && Step(s, a).log == s.log
    ensures Step(s, a).observers == s.observers[a.id := Step(s, a).observers[a.id]]
  {
  }

  lemma MovedObserverFits(s: State, a: Act, o: Observer)
    requires !a.AppendOutside? && !a.Store? && !a.Reserve? && !a.Observe? && a.id in s.observers
             && o == s.observers[a.id]
    requires Lawful(s, a) && Step(s, a) != s && ObserverFits(s.log, o) && ReservedIsOwn(s.log, o)
    requires a.id in Step(s, a).observers
    ensures ObserverFits(s.log, Step(s, a).observers[a.id]) && ReservedIsOwn(s.log, Step(s, a).observers[a.id])
  {
    hide AppendTo, MayReserve, Without, InLog, Holds, Strip;
    var o' := Step(s, a).observers[a.id];
    assert forall e | e in o'.yielded :: e in o.yielded || e == o.phase.event;
    assert o'.Reserving() ==> o.Reserving() && o'.Reservation() == o.Reservation();
  }

  lemma StepKeepsInvariant(s: State, a: Act)
    requires Inv(s) && Lawful(s, a)
    ensures Inv(Step(s, a)) && Extends(s.log, Step(s, a).log)
  {
    StepKeepsSlots(s, a);
    StepKeepsLogs(s, a);
  }

  // ---- the protocol's guarantees, over every interleaving ----

  lemma {:induction false} InvariantAlways(acts: seq<Act>)
    requires AllLawful(START, acts)
    ensures Inv(Perform(START, acts))
  {
    if acts != [] {
      InvariantAlways(acts[..|acts| - 1]);
      StepKeepsInvariant(Perform(START, acts[..|acts| - 1]), acts[|acts| - 1]);
    }
  }

  /**
   * However the streams interleave: no run and no conversation ever has two owners, every slot in
   * use has one, an owner finds its own task in its slot and is past its claim, whatever was yielded
   * is already stored, a conversation has at most one active run, and no store of an event is
   * refused for a conversation conflict.
   */
  lemma EveryInterleavingIsSafe(acts: seq<Act>, i: nat, j: nat)
    requires AllLawful(START, acts)
    ensures var s := Perform(START, acts);
            && (forall k | k in s.active :: exists n | n in s.observers :: s.observers[n].Owns(k))
            && (forall c | c in s.reservations :: exists n | n in s.observers :: s.observers[n].Reserves(c))
            && OneActiveRun(s.log)
            && (i in s.observers ==>
                  var o := s.observers[i];
                  && Backed(o, s.active, s.reservations)
                  && (forall e | e in o.yielded :: InLog(s.log, o.principal, e))
                  && (o.phase.Appending? ==>
                        !AppendTo(s.log, o.principal, o.phase.event,
                            ConversationToStore(o, o.phase.event)).1.ConversationConflict?))
            && (i in s.observers && j in s.observers && i != j ==>
                  && (forall k :: !(s.observers[i].Owns(k) && s.observers[j].Owns(k)))
                  && (forall c :: !(s.observers[i].Reserves(c) && s.observers[j].Reserves(c))))
  {
    InvariantAlways(acts);
    var s := Perform(START, acts);
    if i in s.observers {
      assert ObserverFits(s.log, s.observers[i]) && Backed(s.observers[i], s.active, s.reservations);
      if s.observers[i].phase.Appending? {
        NeverConflicts(s, i);
      }
    }
    if j in s.observers {
      assert Backed(s.observers[j], s.active, s.reservations);
    }
  }

  // ---- who gets in ----

  /** A stream is let in exactly when no other one reserves its conversation and no active run holds it. */
  lemma EntersIff(acts: seq<Act>, id: nat)
    requires AllLawful(START, acts)
    requires var s := Perform(START, acts); id in s.observers && s.observers[id].phase.Entering?
    ensures var s := Perform(START, acts);
            var o := s.observers[id];
            var c := o.Reservation();
            InTry(Step(s, Reserve(id)).observers[id].phase) <==>
              c.None? || (!ConversationBusy(s.log, o.principal, c.value.conversation)
                          && forall n | n in s.observers :: !s.observers[n].Reserves(c.value))
  {
    InvariantAlways(acts);
    var s := Perform(START, acts);
    hide Perform, AllLawful;
    forall n | n in s.observers ensures Backed(s.observers[n], s.active, s.reservations) {
    }
    hide LogValid, OneActiveRun, Logs, ConversationBusy;
  }

  /** A claim succeeds exactly when no stream owns the run; then the claiming one does. */
  lemma ClaimsIff(acts: seq<Act>, id: nat)
    requires AllLawful(START, acts)
    requires var s := Perform(START, acts); id in s.observers && s.observers[id].phase.Claiming?
    ensures var s := Perform(START, acts);
            var k := KeyOf(s.observers[id].principal, s.observers[id].phase.event.runId);
            var after := Step(s, Claim(id)).observers[id];
            && (after.Owns(k) <==> forall n | n in s.observers :: !s.observers[n].Owns(k))
            && (!after.Owns(k) ==> after.phase.LeavingRun?)
  {
    InvariantAlways(acts);
    var s := Perform(START, acts);
    hide Perform, AllLawful;
    assert ObserverFits(s.log, s.observers[id]);
    forall n | n in s.observers ensures Backed(s.observers[n], s.active, s.reservations) {
    }
    hide LogValid, OneActiveRun, Logs, ReservationsOwned;
  }

  /** An event is handed on exactly when the log has it afterwards, stored now or before. */
  lemma YieldsIff(acts: seq<Act>, id: nat)
    requires AllLawful(START, acts)
    requires var s := Perform(START, acts); id in s.observers && s.observers[id].phase.Appending?
    ensures var s := Perform(START, acts);
            var o, after := s.observers[id], Step(s, Store(id));
            && (after.observers[id].phase.Yielding? <==> InLog(after.log, o.principal, o.phase.event))
            && (after.observers[id].phase.Yielding? ==> after.observers[id].phase.event == o.phase.event)
            && (!after.observers[id].phase.Yielding? ==> after.observers[id].phase.LeavingRun? && after.log == s.log)
  {
    InvariantAlways(acts);
    var s := Perform(START, acts);
    hide Perform, AllLawful, Slots, OneActiveRun, Logs;
    StoredIff(s.log, s.observers[id].principal, s.observers[id].phase.event,
              ConversationToStore(s.observers[id], s.observers[id].phase.event));
    hide AppendTo, InLog;
  }

  lemma StoredIff(log: Log, p: Principal, e: AgentEvent, conversationId: Option<string>)
    requires LogValid(log)
    ensures var (after, r) := AppendTo(log, p, e, conversationId);
            && (r.Stored? || r.AlreadyStored? <==> InLog(after, p, e))
            && (!r.Stored? ==> after == log)
  {
    RefusedIff(log, p, e, conversationId);
    AppendKeepsLog(log, p, e, conversationId);
    hide LogValid, Extends, Conversation;
  }

  /** When every stream is gone, no slot is left taken. */
  lemma GoneLeaveNothing(acts: seq<Act>)
    requires AllLawful(START, acts)
    requires forall n | n in Perform(START, acts).observers :: Perform(START, acts).observers[n].phase.Gone?
    ensures Perform(START, acts).active == map[] && Perform(START, acts).reservations == map[]
  {
    InvariantAlways(acts);
    var s := Perform(START, acts);
    hide Perform, AllLawful, LogValid, OneActiveRun, Logs;
    forall n | n in s.observers ensures Backed(s.observers[n], s.active, s.reservations) {
    }
  }

  // ---- what a stream hands on, in order ----

  /** The events a stream has received. */
  function Received(acts: seq<Act>, id: nat): seq<AgentEvent> {
    if acts == [] then []
    else
      var before, a := acts[..|acts| - 1], acts[|acts| - 1];
      var s := Perform(START, before);
      Received(before, id)
      + if a.Receive? && a.id == id && id in s.observers && s.observers[id].phase.Streaming? then [a.event] else []
  }

  function InHand(ph: Phase): seq<AgentEvent> {
    if ph.Claiming? || ph.Appending? || ph.Yielding? then [ph.event] else []
  }

  /** Until it leaves, a stream has handed on all it received but the event in hand; afterwards, all but one at most. */
  predicate HandsOn(o: Observer, received: seq<AgentEvent>) {
    if o.phase.Entering? || InTry(o.phase) then received == o.yielded + InHand(o.phase)
    else o.yielded <= received && |received| <= |o.yielded| + 1
  }

  lemma StepHandsOn(s: State, a: Act, id: nat, received: seq<AgentEvent>)
    requires if id in s.observers then HandsOn(s.observers[id], received) else received == []
    ensures var more := if a.Receive? && a.id == id && id in s.observers && s.observers[id].phase.Streaming?
                        then received + [a.event] else received;
            if id in Step(s, a).observers then HandsOn(Step(s, a).observers[id], more) else more == []
  {
    if id in s.observers && !a.AppendOutside? && !a.Observe? && a.id == id {
      OwnStepHandsOn(s, a, s.observers[id], received);
    } else {
      OthersHandOnNothing(s, a, id);
    }
    hide StepObserver, AppendTo;
  }

  lemma OthersHandOnNothing(s: State, a: Act, id: nat)
    requires a.AppendOutside? || a.Observe? || a.id != id || id !in s.observers
    ensures var after := Step(s, a).observers;
            if id in s.observers then id in after && after[id] == s.observers[id]
            else id in after ==> after[id].phase.Entering? && after[id].yielded == []
  {
    hide AppendTo, MayReserve;
  }

  lemma OwnStepHandsOn(s: State, a: Act, o: Observer, received: seq<AgentEvent>)
    requires !a.AppendOutside? && !a.Observe? && a.id in s.observers && o == s.observers[a.id]
    requires HandsOn(o, received)
    ensures var more := if a.Receive? && o.phase.Streaming? then received + [a.event] else received;
            var after := StepObserver(s, a, o).observers;
            a.id in after && HandsOn(after[a.id], more)
  {
    hide AppendTo, MayReserve, Without, ConversationToStore, KeyOf;
    var after := StepObserver(s, a, o).observers[a.id];
    if o.phase.Yielding? {
      assert o.yielded + [o.phase.event] + [] == o.yielded + [o.phase.event];
    }
    assert after.yielded + [] == after.yielded && o.yielded + [] == o.yielded;
  }

  /** Whatever the interleaving, a stream hands on what it received, in that order and without a gap. */
  lemma {:induction false} HandedOnInOrder(acts: seq<Act>, id: nat)
    ensures var s := Perform(START, acts);
            if id in s.observers then HandsOn(s.observers[id], Received(acts, id)) else Received(acts, id) == []
  {
    if acts != [] {
      HandedOnInOrder(acts[..|acts| - 1], id);
      StepHandsOn(Perform(START, acts[..|acts| - 1]), acts[|acts| - 1], id, Received(acts[..|acts| - 1], id));
      hide Step, HandsOn;
    }
  }

  // ---- a failed claim ----

  /** Only its own release takes the slot of a run from its owner. */
  lemma OwnerStays(s: State, a: Act, n: nat, k: RunKey)
    requires Slots(s.observers, s.active, s.reservations) && Lawful(s, a)
    requires n in s.observers && s.observers[n].Owns(k) && a != ReleaseRun(n)
    ensures var s' := Step(s, a);
            && n in s'.observers && s'.observers[n].Owns(k) && s'.observers[n].task == s.observers[n].task
            && k in s'.active && s'.active[k] == s.observers[n].task
  {
    assert Backed(s.observers[n], s.active, s.reservations);
    StepKeepsSlots(s, a);
    OwnerKeepsKey(s, a, n, k);
    assert Backed(Step(s, a).observers[n], Step(s, a).active, Step(s, a).reservations);
  }

  lemma OwnerKeepsKey(s: State, a: Act, n: nat, k: RunKey)
    requires n in s.observers && s.observers[n].Owns(k) && Holding(s.observers[n].phase) && a != ReleaseRun(n)
    ensures n in Step(s, a).observers
    ensures Step(s, a).observers[n].Owns(k) && Step(s, a).observers[n].task == s.observers[n].task
  {
  }

  lemma {:induction false} OwnerStaysAlong(s: State, acts: seq<Act>, n: nat, k: RunKey)
    requires Inv(s) && AllLawful(s, acts)
    requires n in s.observers && s.observers[n].Owns(k) && ReleaseRun(n) !in acts
    ensures var s' := Perform(s, acts);
            && Inv(s')
            && n in s'.observers && s'.observers[n].Owns(k) && s'.observers[n].task == s.observers[n].task
            && k in s'.active && s'.active[k] == s.observers[n].task
  {
    hide Step, Lawful, LogValid, OneActiveRun, Logs;
    if acts == [] {
      assert Backed(s.observers[n], s.active, s.reservations);
    } else {
      var before := acts[..|acts| - 1];
      OwnerStaysAlong(s, before, n, k);
      StepKeepsInvariant(Perform(s, before), acts[|acts| - 1]);
      OwnerStays(Perform(s, before), acts[|acts| - 1], n, k);
    }
  }

  /**
   * Over every lawful interleaving: a stream that finds the slot of its run taken is not the owner,
   * runs in another task, and its claim fails. Whatever happens next in whatever order, the failed
   * claim and its release among it, every owner keeps its slot until its own release.
   */
  lemma FailedClaimNeverEvicts(acts: seq<Act>, id: nat, k: RunKey, more: seq<Act>)
    requires AllLawful(START, acts) && AllLawful(Perform(START, acts), more)
    requires var s := Perform(START, acts);
             id in s.observers && s.observers[id].phase.Claiming? && s.observers[id].key == Some(k) && k in s.active
    ensures var s := Perform(START, acts);
            var s' := Perform(s, more);
            && Step(s, Claim(id)) == Set(s, id, s.observers[id].(phase := LeavingRun))
            && (exists n | n in s.observers :: s.observers[n].Owns(k))
            && (forall n | n in s.observers && s.observers[n].Owns(k) ::
                  && n != id && s.active[k] == s.observers[n].task != s.observers[id].task
                  && (ReleaseRun(n) !in more ==>
                        && n in s'.observers && s'.observers[n].Owns(k)
                        && k in s'.active && s'.active[k] == s.active[k]))
  {
    InvariantAlways(acts);
    var s := Perform(START, acts);
    assert Backed(s.observers[id], s.active, s.reservations);
    forall n | n in s.observers && s.observers[n].Owns(k)
      ensures n != id && s.active[k] == s.observers[n].task != s.observers[id].task
      ensures ReleaseRun(n) !in more ==>
                var s' := Perform(s, more);
                n in s'.observers && s'.observers[n].Owns(k) && k in s'.active && s'.active[k] == s.active[k]
    {
      assert Backed(s.observers[n], s.active, s.reservations);
      if ReleaseRun(n) !in more {
        OwnerStaysAlong(s, more, n, k);
      }
    }
  }

  predicate By(a: Act, id: nat) {
    !a.AppendOutside? && a.id == id
  }

  lemma OtherLeavesItAlone(s: State, a: Act, id: nat)
    requires id in s.observers && !By(a, id)
    ensures id in Step(s, a).observers && Step(s, a).observers[id] == s.observers[id]
  {
    hide AppendTo, MayReserve, KeyOf;
  }

  lemma {:induction false} OthersLeaveItAlone(s: State, acts: seq<Act>, id: nat)
    requires id in s.observers && forall a | a in acts :: !By(a, id)
    ensures id in Perform(s, acts).observers && Perform(s, acts).observers[id] == s.observers[id]
  {
    hide Step;
    if acts != [] {
      OthersLeaveItAlone(s, acts[..|acts| - 1], id);
      OtherLeavesItAlone(Perform(s, acts[..|acts| - 1]), acts[|acts| - 1], id);
    }
  }

  /**
   * Without the promise of one task a stream, from any state: the key is set before the test, so the
   * `finally` of a failed claim looks at the owner's slot. However much other streams do between the
   * claim and the release, a slot still in use survives the release if and only if it holds another task.
   */
  lemma FailedClaimKeepsOwnerIff(s: State, id: nat, k: RunKey, between: seq<Act>)
    requires id in s.observers && s.observers[id].phase.Claiming? && s.observers[id].key == Some(k)
    requires k in s.active && (forall a | a in between :: !By(a, id))
    requires k in Perform(Step(s, Claim(id)), between).active
    ensures var before := Perform(Step(s, Claim(id)), between);
            var after := Step(before, ReleaseRun(id));
            && id in after.observers && after.observers[id].phase.LeavingConversation?
            && (k in after.active <==> before.active[k] != s.observers[id].task)
            && (k in after.active ==> after.active == before.active)
  {
    OthersLeaveItAlone(Step(s, Claim(id)), between, id);
  }

  // Two streams of one task resume the same run.
  const SOMEONE: Principal := Principal("t", "u")
  const RESUMPTION: AgentEvent := AgentEvent("r", 1, RunResumed("i"), None)

  function Resuming(id: nat): seq<Act> {
    [Observe(id, 0, SOMEONE, None, true), Reserve(id), Receive(id, RESUMPTION), Claim(id)]
  }

  function Resumed(ph: Phase, claimed: bool): Observer {
    Observer(0, SOMEONE, None, true, ph, Some(KeyOf(SOMEONE, "r")), claimed, [])
  }

  lemma PerformMore(s: State, acts: seq<Act>, a: Act)
    ensures Perform(s, acts + [a]) == Step(Perform(s, acts), a)
  {
    assert (acts + [a])[..|acts|] == acts;
  }

  lemma PerformFour(s: State, a: Act, b: Act, c: Act, d: Act)
    ensures Perform(s, [a, b, c, d]) == Step(Step(Step(Step(s, a), b), c), d)
  {
    hide Step;
    PerformMore(s, [], a);
    PerformMore(s, [a], b);
    PerformMore(s, [a, b], c);
    PerformMore(s, [a, b, c], d);
    assert [] + [a] == [a] && [a] + [b] == [a, b] && [a, b] + [c] == [a, b, c] && [a, b, c] + [d] == [a, b, c, d];
  }

  lemma Enters(s: State, id: nat)
    requires id !in s.observers
    ensures Step(Step(s, Observe(id, 0, SOMEONE, None, true)), Reserve(id))
            == Set(s, id, Observer(0, SOMEONE, None, true, Streaming, None, false, []))
  {
    hide AppendTo, Strip;
    var s1 := Step(s, Observe(id, 0, SOMEONE, None, true));
    assert s1 == Set(s, id, Observer(0, SOMEONE, None, true, Entering, None, false, []));
    assert Step(s1, Reserve(id)).observers
           == Set(s, id, Observer(0, SOMEONE, None, true, Streaming, None, false, [])).observers;
  }

  lemma Receives(s: State, id: nat)
    ensures Step(Set(s, id, Observer(0, SOMEONE, None, true, Streaming, None, false, [])), Receive(id, RESUMPTION))
            == Set(s, id, Resumed(Claiming(RESUMPTION), false))
  {
    hide AppendTo, Strip;
    var s2 := Set(s, id, Observer(0, SOMEONE, None, true, Streaming, None, false, []));
    assert Step(s2, Receive(id, RESUMPTION)).observers == Set(s, id, Resumed(Claiming(RESUMPTION), false)).observers;
  }

  lemma Claims(s: State, id: nat)
    ensures Step(Set(s, id, Resumed(Claiming(RESUMPTION), false)), Claim(id)) ==
            if KeyOf(SOMEONE, "r") in s.active then Set(s, id, Resumed(LeavingRun, false))
            else Set(s.(active := s.active[KeyOf(SOMEONE, "r") := 0]), id, Resumed(Appending(RESUMPTION), true))
  {
    hide AppendTo, Strip;
    var s3 := Set(s, id, Resumed(Claiming(RESUMPTION), false));
    assert forall o :: Set(s3, id, o).observers == Set(s, id, o).observers;
  }

  lemma ResumingPerformed(s: State, id: nat)
    requires id !in s.observers
    ensures Perform(s, Resuming(id)) ==
            if KeyOf(SOMEONE, "r") in s.active then Set(s, id, Resumed(LeavingRun, false))
            else Set(s.(active := s.active[KeyOf(SOMEONE, "r") := 0]), id, Resumed(Appending(RESUMPTION), true))
  {
    hide Step, Perform, Set, Resumed, KeyOf;
    PerformFour(s, Observe(id, 0, SOMEONE, None, true), Reserve(id), Receive(id, RESUMPTION), Claim(id));
    Enters(s, id);
    Receives(s, id);
    Claims(s, id);
  }

  /**
   * In one task the release of a failed claim does evict the owner: stream 0 is about to store an
   * event of a run whose slot is free for a third stream to take.
   */
  lemma SharedTaskEvicts()
    ensures var s := Perform(Perform(Perform(START, Resuming(0)), Resuming(1)), [ReleaseRun(1)]);
            && 0 in s.observers && s.observers[0].Owns(KeyOf(SOMEONE, "r")) && s.observers[0].phase.Appending?
            && KeyOf(SOMEONE, "r") !in s.active
            && !Lawful(Perform(START, Resuming(0)), Resuming(1)[0])
  {
    ResumingPerformed(START, 0);
    var s := Perform(START, Resuming(0));
    assert 0 in s.observers && s.observers[0].task == 0;
    ResumingPerformed(s, 1);
    PerformMore(Perform(s, Resuming(1)), [], ReleaseRun(1));
    assert [] + [ReleaseRun(1)] == [ReleaseRun(1)];
  }

  // ---- the coordinator object ----

  /**
   * The lock sections of `observe` on the two dictionaries, each proved to be its atomic step.
   * `observers` holds the local variables of every stream that has entered `observe`.
   */
  class Coordinator {
    const store: RunEventStore.Store
    var active: map<RunKey, TaskId>
    var reservations: map<ConversationKey, TaskId>
    ghost var observers: map<nat, Observer>

    constructor (store: RunEventStore.Store)
      requires store.Valid()
      ensures this.store == store && View() == START.(log := store.log)
    {
      this.store := store;
      active, reservations, observers := map[], map[], map[];
    }

    ghost function View(): State
      reads this, store
    {
      State(store.log, active, reservations, observers)
    }

    /** Before the try: the conversation must be neither reserved nor busy in the store. */
    method ReserveConversation(ghost id: nat, o: Observer) returns (entered: bool)
      requires store.Valid() && id in observers && observers[id] == o && o.phase.Entering?
      modifies this
      ensures View() == AfterReserve(old(View()), id, o)
      ensures entered <==> InTry(observers[id].phase)
    {
      var c := o.Reservation();
      entered := true;
      if c.Some? {
        entered := c.value !in reservations;
        if entered {
          entered := store.EnsureConversationAvailable(o.principal, c.value.conversation);
        }
        if entered {
          reservations := reservations[c.value := o.task];
        }
      }
      observers := observers[id := o.(phase := if entered then Streaming else Gone)];
    }

    method ClaimRun(ghost id: nat, o: Observer) returns (claimed: bool)
      requires id in observers && observers[id] == o && o.phase.Claiming? && o.key.Some?
      modifies this
      ensures View() == AfterClaim(old(View()), id, o)
      ensures claimed <==> o.key.value !in old(active)
    {
      claimed := o.key.value !in active;
      if claimed {
        active := active[o.key.value := o.task];
        observers := observers[id := o.(phase := Appending(o.phase.event), claimed := true)];
      } else {
        observers := observers[id := o.(phase := LeavingRun)];
      }
    }

    /** The event is yielded only after the store has it. */
    method StoreEvent(ghost id: nat, o: Observer) returns (stored: bool)
      requires store.Valid() && id in observers && observers[id] == o && o.phase.Appending?
      modifies this, store
      ensures store.Valid() && View() == AfterStore(old(View()), id, o, o.phase.event)
      ensures stored <==> observers[id].phase.Yielding?
    {
      var e := o.phase.event;
      var r := store.Append(o.principal, e, ConversationToStore(o, e));
      stored := r.Stored? || r.AlreadyStored?;
      observers := observers[id := o.(phase := if stored then Yielding(e) else LeavingRun)];
    }

    method LeaveRun(ghost id: nat, o: Observer)
      requires id in observers && observers[id] == o && o.phase.LeavingRun?
      modifies this
      ensures View() == AfterReleaseRun(old(View()), id, o)
    {
      if o.key.Some? && o.key.value in active && active[o.key.value] == o.task {
        active := active - {o.key.value};
      }
      observers := observers[id := o.(phase := LeavingConversation, claimed := false)];
    }

    method LeaveConversation(ghost id: nat, o: Observer)
      requires id in observers && observers[id] == o && o.phase.LeavingConversation?
      modifies this
      ensures View() == AfterReleaseConversation(old(View()), id, o)
    {
      var c := o.Reservation();
      if c.Some? && c.value in reservations && reservations[c.value] == o.task {
        reservations := reservations - {c.value};
      }
      observers := observers[id := o.(phase := Gone)];
    }

    /** The number a resumed run restarts at. */
    method NextSequence(k: RunKey) returns (r: Option<int>)
      requires store.Valid()
      ensures r == if k in store.log then Some(|store.log[k].events|) else None
    {
      var last := store.LastSequence(k);
      r := if last.Some? then Some(last.value + 1) else None;
    }
  }
}
