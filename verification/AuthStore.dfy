/**
 * The in-memory authentication store: users indexed by login name, and refresh tokens
 * that replace one another in chains.
 */
module AuthStore {
  import opened Outcomes

  type Instant = int

  datatype UserKey = UserKey(tenantId: string, userId: string)
  datatype Login = Login(tenantId: string, username: string)
  datatype User = User(
    username: string,
    passwordHash: string,
    roles: seq<string>,
    disabled: bool,
    tokenVersion: nat,
    createdAt: Instant,
    updatedAt: Instant,
    lastLoginAt: Option<Instant>)

  datatype Token = Token(
    hash: string,
    owner: UserKey,
    expiresAt: Instant,
    revokedAt: Option<Instant>,
    replacedBy: Option<string>,
    createdAt: Instant,
    lastUsedAt: Option<Instant>)

  datatype AuthError = UsernameTaken | TokenIdExists | TokenHashExists | OldTokenNotActive

  /** The token records and the index from hash to id. */
  datatype Tokens = Tokens(records: map<string, Token>, byHash: map<string, string>)

  // ---- the operations on tokens ----

  predicate Matches(t: Tokens, id: string, hash: string) {
    id in t.records && t.records[id].hash == hash
  }

  predicate Active(t: Tokens, id: string, hash: string, now: Instant) {
    Matches(t, id, hash) && t.records[id].revokedAt.None? && t.records[id].expiresAt > now
  }

  function Clash(t: Tokens, id: string, hash: string): Option<AuthError> {
    if id in t.records then Some(TokenIdExists)
    else if hash in t.byHash then Some(TokenHashExists)
    else None
  }

  function Issue(t: Tokens, id: string, hash: string, owner: UserKey, expiresAt: Instant, now: Instant): Tokens {
    Tokens(t.records[id := Token(hash, owner, expiresAt, None, None, now, None)], t.byHash[hash := id])
  }

  function Retire(t: Tokens, id: string, now: Instant, successor: Option<string>): Tokens
    requires id in t.records
  {
    t.(records := t.records[id := t.records[id].(revokedAt := Some(now), replacedBy := successor)])
  }

  datatype TokenOp =
    | StoreToken(id: string, hash: string, owner: UserKey, expiresAt: Instant, now: Instant)
    | UseToken(id: string, hash: string, now: Instant)
    | RotateToken(oldId: string, oldHash: string, id: string, hash: string, owner: UserKey, expiresAt: Instant,
        now: Instant)
    | RevokeToken(id: string, hash: string, now: Instant)

  function RotateRefusal(t: Tokens, op: TokenOp): Option<AuthError>
    requires op.RotateToken?
  {
    if !Active(t, op.oldId, op.oldHash, op.now) || t.records[op.oldId].owner != op.owner then Some(OldTokenNotActive)
    else Clash(t, op.id, op.hash)
  }

  /** The state after an operation; a refused one changes nothing. */
  function Perform(t: Tokens, op: TokenOp): Tokens {
    match op
    case StoreToken(id, hash, owner, expiresAt, now) =>
      if Clash(t, id, hash).Some? then t else Issue(t, id, hash, owner, expiresAt, now)
    case UseToken(id, hash, now) =>
      if Active(t, id, hash, now) then t.(records := t.records[id := t.records[id].(lastUsedAt := Some(now))]) else t
    case RotateToken(oldId, _, id, hash, owner, expiresAt, now) =>
      if RotateRefusal(t, op).Some? then t
      else Issue(Retire(t, oldId, now, Some(id)), id, hash, owner, expiresAt, now)
    case RevokeToken(id, hash, now) =>
      if Matches(t, id, hash) && t.records[id].revokedAt.None? then Retire(t, id, now, t.records[id].replacedBy) else t
  }

  function PerformAll(ops: seq<TokenOp>): Tokens {
    if ops == [] then Tokens(map[], map[]) else Perform(PerformAll(ops[..|ops| - 1]), ops[|ops| - 1])
  }

  // ---- what every history keeps ----

  ghost predicate HashIndexExact(t: Tokens) {
    && (forall id | id in t.records :: t.records[id].hash in t.byHash && t.byHash[t.records[id].hash] == id)
    && (forall h | h in t.byHash :: t.byHash[h] in t.records && t.records[t.byHash[h]].hash == h)
  }

  predicate Links(t: Tokens, a: string, b: string) {
    a in t.records && t.records[a].replacedBy == Some(b)
  }

  /** Links lead to younger tokens of the same owner, from revoked tokens only, and no token has two predecessors. */
  ghost predicate LinksValid(t: Tokens, born: map<string, nat>, clock: nat) {
    && born.Keys == t.records.Keys
    && (forall id | id in born :: born[id] < clock)
    && (forall a, b | Links(t, a, b) ::
          && b in t.records && born[a] < born[b]
          && t.records[a].revokedAt.Some? && t.records[a].owner == t.records[b].owner)
    && (forall a, c, b | Links(t, a, b) && Links(t, c, b) :: a == c)
  }

  /** Tokens are only ever revoked: nothing that identifies one changes, and no link is undone. */
  ghost predicate Extends(before: Tokens, after: Tokens) {
    forall id | id in before.records ::
      && id in after.records
      && after.records[id].hash == before.records[id].hash
      && after.records[id].owner == before.records[id].owner
      && after.records[id].expiresAt == before.records[id].expiresAt
      && (before.records[id].revokedAt.Some? ==> after.records[id].revokedAt == before.records[id].revokedAt)
      && (before.records[id].revokedAt.Some? ==> after.records[id].replacedBy == before.records[id].replacedBy)
  }

  /** A live token has not been replaced, so revoking it cannot cut a chain. */
  ghost predicate LiveAreTails(t: Tokens) {
    forall id | id in t.records && t.records[id].revokedAt.None? :: t.records[id].replacedBy.None?
  }

  // A token may be stamped as used or revoked, as long as what identifies it stays.
  predicate Retouches(was: Token, now: Token) {
    && now.hash == was.hash && now.owner == was.owner && now.expiresAt == was.expiresAt
    && (was.revokedAt.Some? ==> now.revokedAt == was.revokedAt && now.replacedBy == was.replacedBy)
  }

  lemma RetouchKeeps(t: Tokens, id: string, token: Token)
    requires id in t.records && Retouches(t.records[id], token) && HashIndexExact(t)
    ensures HashIndexExact(t.(records := t.records[id := token]))
    ensures Extends(t, t.(records := t.records[id := token]))
  {
  }

  lemma RetouchKeepsTails(t: Tokens, id: string, token: Token)
    requires LiveAreTails(t) && id in t.records && (token.revokedAt.None? ==> token.replacedBy.None?)
    ensures LiveAreTails(t.(records := t.records[id := token]))
  {
  }

  lemma RetouchKeepsLinks(t: Tokens, born: map<string, nat>, clock: nat, id: string, token: Token)
    requires LinksValid(t, born, clock) && id in t.records
    requires Retouches(t.records[id], token) && token.replacedBy == t.records[id].replacedBy
    ensures LinksValid(t.(records := t.records[id := token]), born, clock)
  {
    var t' := t.(records := t.records[id := token]);
    assert t'.records.Keys == t.records.Keys;
    forall a, b ensures Links(t', a, b) == Links(t, a, b) {
    }
  }

  lemma IssueKeeps(t: Tokens, id: string, hash: string, owner: UserKey, expiresAt: Instant, now: Instant)
    requires HashIndexExact(t) && Clash(t, id, hash).None?
    ensures HashIndexExact(Issue(t, id, hash, owner, expiresAt, now))
    ensures Extends(t, Issue(t, id, hash, owner, expiresAt, now))
  {
  }

  lemma IssueKeepsTails(t: Tokens, id: string, hash: string, owner: UserKey, expiresAt: Instant, now: Instant)
    requires LiveAreTails(t)
    ensures LiveAreTails(Issue(t, id, hash, owner, expiresAt, now))
  {
  }

  lemma IssueKeepsLinks(
      t: Tokens, born: map<string, nat>, clock: nat, id: string, hash: string, owner: UserKey, expiresAt: Instant,
      now: Instant)
    requires LinksValid(t, born, clock) && id !in t.records
    ensures LinksValid(Issue(t, id, hash, owner, expiresAt, now), born[id := clock], clock + 1)
  {
    var t' := Issue(t, id, hash, owner, expiresAt, now);
    forall a, b ensures Links(t', a, b) == Links(t, a, b) {
    }
    assert t'.records.Keys == t.records.Keys + {id};
  }

  // The only new link is from the old token to the new one, which nothing led to before.
  lemma RotateKeepsLinks(t: Tokens, born: map<string, nat>, clock: nat, op: TokenOp)
    requires op.RotateToken? && RotateRefusal(t, op).None?
    requires LiveAreTails(t) && LinksValid(t, born, clock)
    ensures LinksValid(Perform(t, op), born[op.id := clock], clock + 1)
  {
    var t' := Perform(t, op);
    assert t'.records.Keys == t.records.Keys + {op.id};
    forall a, b ensures Links(t', a, b) <==> Links(t, a, b) || (a == op.oldId && b == op.id) {
    }
    forall a ensures !Links(t, a, op.id) {
    }
    NewLinkKeeps(t, t', born, clock, op.oldId, op.id);
  }

  lemma NewLinkKeeps(t: Tokens, t': Tokens, born: map<string, nat>, clock: nat, from: string, to: string)
    requires LinksValid(t, born, clock) && from in t.records && to !in t.records
    requires t'.records.Keys == t.records.Keys + {to}
    requires forall a, b :: Links(t', a, b) <==> Links(t, a, b) || (a == from && b == to)
    requires forall a :: !Links(t, a, to)
    requires forall a | a in t.records :: Retouches(t.records[a], t'.records[a])
    requires t'.records[from].revokedAt.Some? && t'.records[to].owner == t.records[from].owner
    ensures LinksValid(t', born[to := clock], clock + 1)
  {
  }

  lemma QuietKeeps(t: Tokens, born: map<string, nat>, clock: nat, op: TokenOp)
    requires op.UseToken? || op.RevokeToken?
    requires HashIndexExact(t) && LiveAreTails(t) && LinksValid(t, born, clock)
    ensures HashIndexExact(Perform(t, op)) && Extends(t, Perform(t, op))
    ensures LiveAreTails(Perform(t, op)) && LinksValid(Perform(t, op), born, clock)
  {
    if Perform(t, op) != t {
      var token := if op.UseToken? then t.records[op.id].(lastUsedAt := Some(op.now))
          else t.records[op.id].(revokedAt := Some(op.now));
      assert Perform(t, op) == t.(records := t.records[op.id := token]);
      RetouchKeeps(t, op.id, token);
      RetouchKeepsTails(t, op.id, token);
      RetouchKeepsLinks(t, born, clock, op.id, token);
    }
  }

  lemma RotateKeeps(t: Tokens, op: TokenOp)
    requires op.RotateToken? && RotateRefusal(t, op).None?
    requires HashIndexExact(t) && LiveAreTails(t)
    ensures HashIndexExact(Perform(t, op)) && Extends(t, Perform(t, op))
    ensures LiveAreTails(Perform(t, op))
  {
    var token := t.records[op.oldId].(revokedAt := Some(op.now), replacedBy := Some(op.id));
    RetouchKeeps(t, op.oldId, token);
    RetouchKeepsTails(t, op.oldId, token);
    var retired := Retire(t, op.oldId, op.now, Some(op.id));
    IssueKeeps(retired, op.id, op.hash, op.owner, op.expiresAt, op.now);
    IssueKeepsTails(retired, op.id, op.hash, op.owner, op.expiresAt, op.now);
  }

  lemma PerformKeeps(
      t: Tokens, born: map<string, nat>, clock: nat, op: TokenOp) returns (born': map<string, nat>, clock': nat)
    requires HashIndexExact(t) && LiveAreTails(t) && LinksValid(t, born, clock)
    ensures HashIndexExact(Perform(t, op)) && Extends(t, Perform(t, op))
    ensures LiveAreTails(Perform(t, op)) && LinksValid(Perform(t, op), born', clock')
  {
    born', clock' := born, clock;
    match op
    case StoreToken(id, hash, owner, expiresAt, now) =>
      if Clash(t, id, hash).None? {
        IssueKeeps(t, id, hash, owner, expiresAt, now);
        IssueKeepsTails(t, id, hash, owner, expiresAt, now);
        IssueKeepsLinks(t, born, clock, id, hash, owner, expiresAt, now);
        born', clock' := born[id := clock], clock + 1;
      }
    case RotateToken(_, _, _, _, _, _, _) =>
      if RotateRefusal(t, op).None? {
        RotateKeeps(t, op);
        RotateKeepsLinks(t, born, clock, op);
        born', clock' := born[op.id := clock], clock + 1;
      }
    case _ =>
      QuietKeeps(t, born, clock, op);
  }

  lemma {:induction false} HistoryKeeps(ops: seq<TokenOp>) returns (born: map<string, nat>, clock: nat)
    ensures var t := PerformAll(ops); HashIndexExact(t) && LiveAreTails(t) && LinksValid(t, born, clock)
  {
    if ops == [] {
      born, clock := map[], 0;
    } else {
      born, clock := HistoryKeeps(ops[..|ops| - 1]);
      born, clock := PerformKeeps(PerformAll(ops[..|ops| - 1]), born, clock, ops[|ops| - 1]);
    }
  }

  // ---- chains ----

  /** A run of tokens each replaced by the next. */
  ghost predicate Chain(t: Tokens, path: seq<string>) {
    path != [] && forall i: nat | i + 1 < |path| :: LinkAt(t, path, i)
  }

  predicate LinkAt(t: Tokens, path: seq<string>, i: nat)
    requires i + 1 < |path|
  {
    Links(t, path[i], path[i + 1])
  }

  lemma {:induction false} ChainAges(t: Tokens, born: map<string, nat>, clock: nat, path: seq<string>, i: nat, j: nat)
    requires LinksValid(t, born, clock) && Chain(t, path) && i < j < |path|
    ensures path[i] in t.records && path[j] in t.records && born[path[i]] < born[path[j]]
    ensures t.records[path[i]].owner == t.records[path[j]].owner && t.records[path[i]].revokedAt.Some?
    decreases j - i
  {
    assert LinkAt(t, path, i);
    if i + 1 < j {
      ChainAges(t, born, clock, path, i + 1, j);
    }
  }

  lemma {:induction false} ChainsMergeNever(
      t: Tokens, born: map<string, nat>, clock: nat, p: seq<string>, q: seq<string>, k: nat)
    requires LinksValid(t, born, clock) && Chain(t, p) && Chain(t, q)
    requires p[|p| - 1] == q[|q| - 1] && k < |p| && k < |q|
    ensures p[|p| - 1 - k] == q[|q| - 1 - k]
  {
    if k > 0 {
      ChainsMergeNever(t, born, clock, p, q, k - 1);
      assert LinkAt(t, p, |p| - 1 - k) && LinkAt(t, q, |q| - 1 - k);
    }
  }

  /**
   * After any history of store, use, rotate and revoke: chains of replaced tokens never loop,
   * belong to one user, hold at most one live token (the last), and two chains that share a last
   * token are the same chain, up to where they start.
   */
  lemma ChainsAreSafe(ops: seq<TokenOp>, p: seq<string>, q: seq<string>)
    requires Chain(PerformAll(ops), p) && Chain(PerformAll(ops), q)
    ensures var t := PerformAll(ops);
            && HashIndexExact(t)
            && (forall i, j | 0 <= i < j < |p| ::
                  && p[i] != p[j] && p[i] in t.records && p[j] in t.records
                  && t.records[p[i]].owner == t.records[p[j]].owner
                  && t.records[p[i]].revokedAt.Some?)
            && (p[|p| - 1] == q[|q| - 1] && |p| <= |q| ==> p == q[|q| - |p|..])
  {
    var t := PerformAll(ops);
    var born, clock := HistoryKeeps(ops);
    forall i, j | 0 <= i < j < |p|
      ensures && p[i] != p[j] && p[i] in t.records && p[j] in t.records
              && t.records[p[i]].owner == t.records[p[j]].owner && t.records[p[i]].revokedAt.Some?
    {
      ChainAges(t, born, clock, p, i, j);
    }
    if p[|p| - 1] == q[|q| - 1] && |p| <= |q| {
      forall i | 0 <= i < |p| ensures p[i] == q[|q| - |p|..][i] {
        ChainsMergeNever(t, born, clock, p, q, |p| - 1 - i);
      }
    }
  }

  lemma {:induction false} HistoryOnlyRevokes(ops: seq<TokenOp>, more: seq<TokenOp>)
    ensures Extends(PerformAll(ops), PerformAll(ops + more))
    decreases |more|
  {
    hide Perform, LinksValid, LiveAreTails;
    if more == [] {
      assert ops + more == ops;
    } else {
      var all := ops + more;
      assert all[..|all| - 1] == ops + more[..|more| - 1];
      HistoryOnlyRevokes(ops, more[..|more| - 1]);
      var born, clock := HistoryKeeps(all[..|all| - 1]);
      var _, _ := PerformKeeps(PerformAll(all[..|all| - 1]), born, clock, all[|all| - 1]);
    }
  }

  /** As issued: not revoked, not replaced, not used yet. */
  predicate IsFresh(token: Token, now: Instant) {
    token.revokedAt.None? && token.replacedBy.None? && token.createdAt == now && token.lastUsedAt.None?
  }

  /** Nothing but the token under the id may differ. */
  ghost predicate OnlyTouches(before: Tokens, after: Tokens, id: string) {
    && after.records.Keys == before.records.Keys + {id}
    && forall other | other in before.records && other != id :: after.records[other] == before.records[other]
  }

  /** Revoking, whoever asks and however often: the matching token is revoked from its first revocation on. */
  lemma RevocationIsFinal(
      ops: seq<TokenOp>, id: string, hash: string, now: Instant, more: seq<TokenOp>, h: string, later: Instant)
    requires Matches(PerformAll(ops), id, hash)
    ensures var before, after := PerformAll(ops), PerformAll(ops + [RevokeToken(id, hash, now)]);
            var was := before.records[id];
            && OnlyTouches(before, after, id) && after.byHash == before.byHash
            && after.records[id] == was.(revokedAt := if was.revokedAt.None? then Some(now) else was.revokedAt)
    ensures !Active(PerformAll(ops + [RevokeToken(id, hash, now)] + more), id, h, later)
  {
    var op := RevokeToken(id, hash, now);
    assert (ops + [op])[..|ops|] == ops;
    HistoryOnlyRevokes(ops + [op], more);
  }

  /** A revocation that matches no token changes nothing. */
  lemma RevocationNeedsMatch(ops: seq<TokenOp>, id: string, hash: string, now: Instant)
    requires !Matches(PerformAll(ops), id, hash)
    ensures PerformAll(ops + [RevokeToken(id, hash, now)]) == PerformAll(ops)
  {
    assert (ops + [RevokeToken(id, hash, now)])[..|ops|] == ops;
  }

  /** A new token is refused exactly when a token has its id or its hash, and otherwise stored unused. */
  lemma StoringIssues(
      ops: seq<TokenOp>, id: string, hash: string, owner: UserKey, expiresAt: Instant, now: Instant)
    ensures var before, after := PerformAll(ops), PerformAll(ops + [StoreToken(id, hash, owner, expiresAt, now)]);
            if exists other | other in before.records :: other == id || before.records[other].hash == hash
            then after == before
            else
              && OnlyTouches(before, after, id) && Matches(after, id, hash) && IsFresh(after.records[id], now)
              && after.records[id].owner == owner && after.records[id].expiresAt == expiresAt
              && forall later :: Active(after, id, hash, later) <==> later < expiresAt
  {
    var op := StoreToken(id, hash, owner, expiresAt, now);
    assert (ops + [op])[..|ops|] == ops;
    var _, _ := HistoryKeeps(ops);
    var before := PerformAll(ops);
    if hash in before.byHash {
      assert before.records[before.byHash[hash]].hash == hash;
    }
  }

  /** A taken id is named before a taken hash, and a rotation names an old token that is not usable before both. */
  lemma RefusalNames(ops: seq<TokenOp>, id: string, hash: string)
    ensures var t := PerformAll(ops);
            && (Clash(t, id, hash) == Some(TokenIdExists) <==> id in t.records)
            && (Clash(t, id, hash) == Some(TokenHashExists) <==>
                  id !in t.records && exists other | other in t.records :: t.records[other].hash == hash)
            && (forall op: TokenOp | op.RotateToken? ::
                  (RotateRefusal(t, op) == Some(OldTokenNotActive) <==>
                     !Active(t, op.oldId, op.oldHash, op.now) || t.records[op.oldId].owner != op.owner))
  {
    var _, _ := HistoryKeeps(ops);
    var t := PerformAll(ops);
    if hash in t.byHash {
      assert t.records[t.byHash[hash]].hash == hash;
    }
  }

  /** Using an active token stamps it, and changes nothing else. */
  lemma UsingStamps(ops: seq<TokenOp>, id: string, hash: string, now: Instant)
    ensures var before, after := PerformAll(ops), PerformAll(ops + [UseToken(id, hash, now)]);
            if !Active(before, id, hash, now) then after == before
            else
              && OnlyTouches(before, after, id) && after.byHash == before.byHash
              && after.records[id] == before.records[id].(lastUsedAt := Some(now))
  {
    assert (ops + [UseToken(id, hash, now)])[..|ops|] == ops;
  }

  // ---- what makes a token usable, and for how long ----

  /** The operation brings a token with this id and hash that is valid at that time. */
  predicate Gives(t: Tokens, op: TokenOp, id: string, hash: string, later: Instant) {
    && (op.StoreToken? || op.RotateToken?) && op.id == id && op.hash == hash && later < op.expiresAt
    && Clash(t, id, hash).None? && (op.RotateToken? ==> RotateRefusal(t, op).None?)
  }

  /** The operation ends the token: it is revoked, or rotated away. */
  predicate Ends(t: Tokens, op: TokenOp, id: string, hash: string) {
    || (op.RevokeToken? && op.id == id && op.hash == hash)
    || (op.RotateToken? && op.oldId == id && op.oldHash == hash && RotateRefusal(t, op).None?)
  }

  lemma ActiveAfter(t: Tokens, op: TokenOp, id: string, hash: string, later: Instant)
    ensures Active(Perform(t, op), id, hash, later) <==>
            Gives(t, op, id, hash, later) || (Active(t, id, hash, later) && !Ends(t, op, id, hash))
  {
  }

  ghost predicate GivenAt(ops: seq<TokenOp>, k: nat, id: string, hash: string, later: Instant)
    requires k < |ops|
  {
    && Gives(PerformAll(ops[..k]), ops[k], id, hash, later)
    && forall j | k < j < |ops| :: !Ends(PerformAll(ops[..j]), ops[j], id, hash)
  }

  /**
   * Over every history a token is usable exactly when some operation gave it, valid at that time, and no
   * later one ended it.
   */
  lemma {:induction false} ActiveIff(ops: seq<TokenOp>, id: string, hash: string, later: Instant)
    ensures Active(PerformAll(ops), id, hash, later) <==>
            exists k :: 0 <= k < |ops| && GivenAt(ops, k, id, hash, later)
  {
    if ops != [] {
      hide Perform, Gives, Ends;
      var n := |ops| - 1;
      var init := ops[..n];
      ActiveIff(init, id, hash, later);
      ActiveAfter(PerformAll(init), ops[n], id, hash, later);
      forall k | 0 <= k < n
        ensures GivenAt(ops, k, id, hash, later) <==>
                GivenAt(init, k, id, hash, later) && !Ends(PerformAll(init), ops[n], id, hash)
      {
        LongerGivenAt(ops, k, id, hash, later);
      }
      assert GivenAt(ops, n, id, hash, later) <==> Gives(PerformAll(init), ops[n], id, hash, later);
    }
  }

  lemma LongerGivenAt(ops: seq<TokenOp>, k: nat, id: string, hash: string, later: Instant)
    requires k < |ops| - 1
    ensures var init := ops[..|ops| - 1];
            GivenAt(ops, k, id, hash, later) <==>
            GivenAt(init, k, id, hash, later) && !Ends(PerformAll(init), ops[|ops| - 1], id, hash)
  {
    hide PerformAll, Gives, Ends;
    var init := ops[..|ops| - 1];
    assert forall j | 0 <= j <= |init| :: init[..j] == ops[..j];
  }

  /**
   * A rotation that succeeds leaves exactly one usable token where there was one: the new id with
   * the new hash, for the same owner; and the old token is refused ever after, whatever follows.
   */
  lemma RotationIsFinal(ops: seq<TokenOp>, op: TokenOp, more: seq<TokenOp>, hash: string, later: Instant)
    requires op.RotateToken? && RotateRefusal(PerformAll(ops), op).None?
    ensures var t := PerformAll(ops + [op]);
            && Links(t, op.oldId, op.id) && Matches(t, op.id, op.hash) && t.records[op.id].owner == op.owner
            && t.records[op.oldId].revokedAt == Some(op.now) && IsFresh(t.records[op.id], op.now)
            && (forall other | other in PerformAll(ops).records && other != op.oldId ::
                  other in t.records && t.records[other] == PerformAll(ops).records[other])
            && (Active(t, op.id, op.hash, later) <==> later < op.expiresAt)
            && !Active(PerformAll(ops + [op] + more), op.oldId, hash, later)
            && Links(PerformAll(ops + [op] + more), op.oldId, op.id)
  {
    assert (ops + [op])[..|ops|] == ops;
    HistoryOnlyRevokes(ops + [op], more);
  }

  // ---- the store object ----

  class InMemoryAuthStore {
    var users: map<UserKey, User>
    var usersByLogin: map<Login, UserKey>
    var refreshTokens: map<string, Token>
    var refreshTokenHashes: map<string, string>

    ghost predicate UsersValid()
      reads this
    {
      && (forall k | k in users ::
            var l := Login(k.tenantId, users[k].username); l in usersByLogin && usersByLogin[l] == k)
      && (forall l | l in usersByLogin ::
            usersByLogin[l] in users && usersByLogin[l].tenantId == l.tenantId
                && users[usersByLogin[l]].username == l.username)
    }

    ghost function View(): Tokens
      reads this
    {
      Tokens(refreshTokens, refreshTokenHashes)
    }

    constructor ()
      ensures UsersValid() && users == map[] && View() == PerformAll([])
    {
      users, usersByLogin, refreshTokens, refreshTokenHashes := map[], map[], map[], map[];
    }

    /** A login finds the one user of the tenant who has that name now. */
    method FindUserByLogin(tenantId: string, username: string) returns (found: Option<UserKey>)
      requires UsersValid()
      ensures found.Some? ==>
                 found.value in users && found.value.tenantId == tenantId && users[found.value].username == username
      ensures forall k | k in users && k.tenantId == tenantId && users[k].username == username :: found == Some(k)
    {
      var l := Login(tenantId, username);
      if l in usersByLogin && usersByLogin[l] in users {
        return Some(usersByLogin[l]);
      }
      return None;
    }

    method UpsertUser(
        tenantId: string, userId: string, username: string, passwordHash: string, roles: seq<string>, disabled: bool,
        now: Instant)
      returns (r: Outcome<User, AuthError>)
      requires UsersValid()
      modifies this`users, this`usersByLogin
      ensures UsersValid()
      ensures var key := UserKey(tenantId, userId);
              r.Raised? <==> exists other ::
                    other in old(users) && other != key && other.tenantId == tenantId
                    && old(users)[other].username == username
      ensures r.Raised? ==> r.error == UsernameTaken && users == old(users) && usersByLogin == old(usersByLogin)
      ensures r.Returned? ==>
                var key := UserKey(tenantId, userId);
                && users == old(users)[key := r.value]
                && r.value.username == username && r.value.passwordHash == passwordHash
                && r.value.roles == roles && r.value.disabled == disabled && r.value.updatedAt == now
                && (if key in old(users) then
                      var was := old(users)[key];
                      r.value.createdAt == was.createdAt && r.value.lastLoginAt == was.lastLoginAt
                          && r.value.tokenVersion == was.tokenVersion
                    else r.value.createdAt == now && r.value.lastLoginAt == None && r.value.tokenVersion == 0)
    {
      var key := UserKey(tenantId, userId);
      var login := Login(tenantId, username);
      if login in usersByLogin && usersByLogin[login] != key {
        assert usersByLogin[login] in users;
        return Raised(UsernameTaken);
      }
      var user := User(username, passwordHash, roles, disabled, 0, now, now, None);
      if key in users {
        var oldLogin := Login(tenantId, users[key].username);
        if oldLogin != login {
          usersByLogin := usersByLogin - {oldLogin};
        }
        user := users[key].(username := username, passwordHash := passwordHash, roles := roles, disabled := disabled,
            updatedAt := now);
      }
      users := users[key := user];
      usersByLogin := usersByLogin[login := key];
      return Returned(user);
    }

    /** Stamps the login; a user that does not exist is left so. */
    method RecordLogin(tenantId: string, userId: string, now: Instant)
      requires UsersValid()
      modifies this`users
      ensures UsersValid()
      ensures var key := UserKey(tenantId, userId);
              users == if key in old(users) then old(users)[key := old(users)[key].(lastLoginAt := Some(now),
                  updatedAt := now)] else old(users)
    {
      var key := UserKey(tenantId, userId);
      if key in users {
        users := users[key := users[key].(lastLoginAt := Some(now), updatedAt := now)];
      }
    }

    method StoreRefreshToken(id: string, hash: string, owner: UserKey, expiresAt: Instant, now: Instant)
      returns (r: Outcome<Token, AuthError>)
      modifies this`refreshTokens, this`refreshTokenHashes
      ensures View() == Perform(old(View()), StoreToken(id, hash, owner, expiresAt, now))
      ensures r == match Clash(old(View()), id, hash) case Some(e) => Raised(e) case None => Returned(refreshTokens[id])
    {
      if id in refreshTokens {
        return Raised(TokenIdExists);
      }
      if hash in refreshTokenHashes {
        return Raised(TokenHashExists);
      }
      refreshTokens := refreshTokens[id := Token(hash, owner, expiresAt, None, None, now, None)];
      refreshTokenHashes := refreshTokenHashes[hash := id];
      return Returned(refreshTokens[id]);
    }

    method GetActiveRefreshToken(id: string, hash: string, now: Instant) returns (r: Option<Token>)
      modifies this`refreshTokens
      ensures View() == Perform(old(View()), UseToken(id, hash, now))
      ensures r == if Active(old(View()), id, hash, now) then Some(old(refreshTokens)[id].(lastUsedAt := Some(now)))
              else None
    {
      if id !in refreshTokens || refreshTokens[id].hash != hash {
        return None;
      }
      if refreshTokens[id].revokedAt.Some? || refreshTokens[id].expiresAt <= now {
        return None;
      }
      refreshTokens := refreshTokens[id := refreshTokens[id].(lastUsedAt := Some(now))];
      return Some(refreshTokens[id]);
    }

    /** All checks come before the first change, so a refused rotation leaves the store as it was. */
    method RotateRefreshToken(
        oldId: string, oldHash: string, id: string, hash: string, owner: UserKey, expiresAt: Instant, now: Instant)
      returns (r: Outcome<Token, AuthError>)
      modifies this`refreshTokens, this`refreshTokenHashes
      ensures View() == Perform(old(View()), RotateToken(oldId, oldHash, id, hash, owner, expiresAt, now))
      ensures r == match RotateRefusal(old(View()), RotateToken(oldId, oldHash, id, hash, owner, expiresAt, now))
                   case Some(e) => Raised(e) case None => Returned(refreshTokens[id])
    {
      if oldId !in refreshTokens || refreshTokens[oldId].hash != oldHash || refreshTokens[oldId].owner != owner
         || refreshTokens[oldId].revokedAt.Some? || refreshTokens[oldId].expiresAt <= now {
        return Raised(OldTokenNotActive);
      }
      if id in refreshTokens {
        return Raised(TokenIdExists);
      }
      if hash in refreshTokenHashes {
        return Raised(TokenHashExists);
      }
      refreshTokens := refreshTokens[oldId := refreshTokens[oldId].(revokedAt := Some(now), replacedBy := Some(id))];
      r := StoreRefreshToken(id, hash, owner, expiresAt, now);
    }

    method RevokeRefreshToken(id: string, hash: string, now: Instant)
      modifies this`refreshTokens
      ensures View() == Perform(old(View()), RevokeToken(id, hash, now))
      ensures var live := Matches(old(View()), id, hash) && old(refreshTokens)[id].revokedAt.None?;
              refreshTokens == if live then old(refreshTokens)[id := old(refreshTokens)[id].(revokedAt := Some(now))]
                               else old(refreshTokens)
    {
      if id in refreshTokens && refreshTokens[id].hash == hash && refreshTokens[id].revokedAt.None? {
        refreshTokens := refreshTokens[id := refreshTokens[id].(revokedAt := Some(now))];
      }
    }
  }
}
