/** Checkpoint-safe reducers: append-only lists keyed by id, and the run status table. */
module AgentReducers {
  import opened Outcomes
  import opened AgentModels

  datatype Conflict = ConflictingValue(id: string)

  ghost predicate UniqueIds<T(!new)>(items: seq<T>, id: T -> string) {
    forall i, j | 0 <= i < j < |items| :: id(items[i]) != id(items[j])
  }

  predicate Contains<T>(items: seq<T>, id: T -> string, key: string) {
    exists i | 0 <= i < |items| :: id(items[i]) == key
  }

  /** One update: a new id is appended, a known one must carry the value it had. */
  function Merge<T(==)>(items: seq<T>, id: T -> string, item: T): Outcome<seq<T>, Conflict> {
    if !Contains(items, id, id(item)) then Returned(items + [item])
    else if item in items then Returned(items)
    else Raised(ConflictingValue(id(item)))
  }

  function MergeAll<T(==)>(items: seq<T>, id: T -> string, updates: seq<T>): Outcome<seq<T>, Conflict> {
    if updates == [] then Returned(items)
    else
      match MergeAll(items, id, updates[..|updates| - 1])
      case Raised(e) => Raised(e)
      case Returned(merged) => Merge(merged, id, updates[|updates| - 1])
  }

  /** The loop keeps a position for each id, and so finds the one value stored under it. */
  method AppendUnique<T(==, !new)>(
      current: seq<T>, updates: seq<T>, id: T -> string) returns (r: Outcome<seq<T>, Conflict>)
    requires UniqueIds(current, id)
    ensures r == MergeAll(current, id, updates)
  {
    var result := current;
    var positions: map<string, nat> := map[];
    for i := 0 to |current|
      invariant PositionsOf(positions, current[..i], id)
    {
      positions := positions[id(current[i]) := i];
    }
    assert current[..|current|] == current;
    for i := 0 to |updates|
      invariant MergeAll(current, id, updates[..i]) == Returned(result)
      invariant UniqueIds(result, id) && PositionsOf(positions, result, id)
    {
      var item := updates[i];
      assert updates[..i + 1] == updates[..i] + [item];
      if id(item) !in positions {
        positions := positions[id(item) := |result|];
        result := result + [item];
      } else {
        var existing := positions[id(item)];
        assert id(result[existing]) == id(item);
        if result[existing] != item {
          RefusedUpdates(current, id, updates, i);
          return Raised(ConflictingValue(id(item)));
        }
      }
    }
    assert updates[..|updates|] == updates;
    return Returned(result);
  }

  ghost predicate PositionsOf<T(!new)>(positions: map<string, nat>, items: seq<T>, id: T -> string) {
    && (forall k | k in positions :: positions[k] < |items| && id(items[positions[k]]) == k)
    && (forall i | 0 <= i < |items| :: id(items[i]) in positions)
  }

  lemma {:induction false} RefusedUpdates<T>(items: seq<T>, id: T -> string, updates: seq<T>, i: nat)
    requires i < |updates| && MergeAll(items, id, updates[..i + 1]).Raised?
    ensures MergeAll(items, id, updates) == MergeAll(items, id, updates[..i + 1])
    decreases |updates|
  {
    if i + 1 == |updates| {
      assert updates[..i + 1] == updates;
    } else {
      var init := updates[..|updates| - 1];
      assert init[..i + 1] == updates[..i + 1];
      RefusedUpdates(items, id, init, i);
    }
  }

  /** Two values under one id that differ. */
  predicate Clash<T(==)>(a: T, b: T, id: T -> string) {
    id(a) == id(b) && a != b
  }

  /**
   * Merging succeeds exactly when no update clashes with a stored value or with another update.
   * The result starts with what was stored, holds every update, adds nothing else and keeps ids unique.
   */
  lemma {:induction false} MergeAllMeans<T(!new)>(items: seq<T>, id: T -> string, updates: seq<T>)
    requires UniqueIds(items, id)
    ensures MergeAll(items, id, updates).Returned? <==>
            forall a, b | a in updates && (b in items || b in updates) :: !Clash(a, b, id)
    ensures MergeAll(items, id, updates).Returned? ==>
              var merged := MergeAll(items, id, updates).value;
              && items <= merged && UniqueIds(merged, id)
              && (forall x :: x in merged <==> x in items || x in updates)
    decreases |updates|
  {
    if updates != [] {
      var init, item := updates[..|updates| - 1], updates[|updates| - 1];
      assert updates == init + [item];
      MergeAllMeans(items, id, init);
      if MergeAll(items, id, init).Returned? {
        var merged := MergeAll(items, id, init).value;
        if Contains(merged, id, id(item)) && item !in merged {
          var i :| 0 <= i < |merged| && id(merged[i]) == id(item);
          assert merged[i] in merged && Clash(item, merged[i], id);
        } else if item in merged {
          forall x, y | x in merged && y in merged ensures !Clash(x, y, id) {
          }
        } else {
          forall x | x in merged ensures id(x) != id(item) {
            assert Contains(merged, id, id(x));
          }
        }
      }
    }
  }

  /** Replaying updates that went in before changes nothing. */
  lemma {:induction false} ReplayIsNoOp<T(!new)>(items: seq<T>, id: T -> string, updates: seq<T>, again: seq<T>)
    requires UniqueIds(items, id) && MergeAll(items, id, updates).Returned?
    requires forall x | x in again :: x in MergeAll(items, id, updates).value
    ensures MergeAll(MergeAll(items, id, updates).value, id, again) == MergeAll(items, id, updates)
    decreases |again|
  {
    if again != [] {
      var init, item := again[..|again| - 1], again[|again| - 1];
      assert again == init + [item];
      ReplayIsNoOp(items, id, updates, init);
      assert item in again;
      var merged := MergeAll(items, id, updates).value;
      var i :| 0 <= i < |merged| && merged[i] == item;
      assert Contains(merged, id, id(item));
    }
  }

  // ---- status ----

  function StatusTransitions(s: AgentStatus): set<AgentStatus> {
    match s
    case AgentInitializing => {AgentRunning, AgentFailed, AgentCancelled}
    case AgentRunning => {AgentWaiting, AgentCompleted, AgentFailed, AgentCancelled}
    case AgentWaiting => {AgentRunning, AgentFailed, AgentCancelled}
    case AgentCompleted | AgentFailed | AgentCancelled => {}
  }

  datatype TransitionError = InvalidTransition(current: AgentStatus, target: AgentStatus)

  function TransitionAgentStatus(current: AgentStatus, target: AgentStatus): Outcome<AgentStatus, TransitionError> {
    if current == target then Returned(target)
    else if target !in StatusTransitions(current) then Raised(InvalidTransition(current, target))
    else Returned(target)
  }

  /**
   * What the table allows: to stay; to leave a status that is not terminal for any but the first one; and
   * to wait or complete from running only.
   */
  lemma TransitionIff(current: AgentStatus, target: AgentStatus)
    ensures TransitionAgentStatus(current, target) == Returned(target) <==>
            || current == target
            || (!IsTerminalStatus(current) && !target.AgentInitializing?
                && (target.AgentWaiting? || target.AgentCompleted? ==> current.AgentRunning?))
    ensures TransitionAgentStatus(current, target).Raised? ==>
              TransitionAgentStatus(current, target).error == InvalidTransition(current, target)
  {
  }

  /** The statuses a run goes through, each a transition of the table from the one before. */
  predicate LawfulPath(path: seq<AgentStatus>) {
    forall i: nat | i + 1 < |path| :: TransitionAgentStatus(path[i], path[i + 1]).Returned?
  }

  /** Once a lawful run has ended it stays as it ended, and it never goes back to initializing. */
  lemma {:induction false} EndedStaysEnded(path: seq<AgentStatus>, i: nat, j: nat)
    requires LawfulPath(path) && i <= j < |path|
    ensures IsTerminalStatus(path[i]) ==> path[j] == path[i]
    ensures !path[i].AgentInitializing? ==> !path[j].AgentInitializing?
    decreases j - i
  {
    if i < j {
      EndedStaysEnded(path, i, j - 1);
      assert TransitionAgentStatus(path[j - 1], path[j - 1 + 1]).Returned?;
    }
  }
}
