/**
 * The artifact store: a table of references and a directory of payload files, changed together.
 * A digest is injective, so an artifact id is the columns it is the hash of; a payload is its
 * canonical JSON encoding, one character a byte.
 */
module ArtifactStore {
  import opened Outcomes
  import opened IsoInstant
  import opened AgentModels

  datatype Owner = Owner(tenantId: string, userId: string, runId: string)
  datatype Digest = Sha256(payload: string)
  datatype ArtifactId = ArtifactId(owner: Owner, callId: string, kind: ArtifactKind, digest: Digest)
  datatype Sensitivity = MetadataOnly | Derived | RowData

  datatype Write = Write(
    owner: Owner,
    callId: string,
    kind: ArtifactKind,
    payload: string,
    schemaDigest: Option<string>,
    rowCount: Option<nat>,
    sensitivity: Sensitivity,
    retentionSeconds: nat,
    retained: bool)

  /** A table row without the columns its key holds. Times are text. */
  datatype Row = Row(
    schemaDigest: Option<string>,
    rowCount: Option<nat>,
    sensitivity: Sensitivity,
    createdAt: string,
    expiresAt: string,
    retained: bool)

  datatype StoredRef = StoredRef(
    artifactId: ArtifactId,
    schemaDigest: Option<string>,
    rowCount: Option<nat>,
    sensitivity: Sensitivity,
    createdAt: Instant)

  datatype StoreError = InvalidWrite | PayloadTooLarge | ExpiryOverflow | NotFound | IntegrityError

  datatype Store = Store(rows: map<ArtifactId, Row>, files: map<ArtifactId, string>)

  // ---- the operations ----

  function IdOf(w: Write): ArtifactId {
    ArtifactId(w.owner, w.callId, w.kind, Sha256(w.payload))
  }

  predicate IsIso(text: string) {
    |text| >= 25 && IsoInstant.Valid(FromIso(text)) && Iso(FromIso(text)) == text
  }

  function RefOf(id: ArtifactId, row: Row): StoredRef
    requires IsIso(row.createdAt)
  {
    StoredRef(id, row.schemaDigest, row.rowCount, row.sensitivity, FromIso(row.createdAt))
  }

  /** The payload of a row, or an error when the file is missing, too large or altered. */
  function Verified(s: Store, id: ArtifactId, limit: nat): Outcome<string, StoreError> {
    if id !in s.files || |s.files[id]| > limit || Sha256(s.files[id]) != id.digest then Raised(IntegrityError)
    else Returned(s.files[id])
  }

  predicate SameCall(id: ArtifactId, w: Write) {
    id.owner == w.owner && id.callId == w.callId
  }

  predicate SameMetadata(id: ArtifactId, row: Row, w: Write) {
    id == IdOf(w) && row.schemaDigest == w.schemaDigest && row.rowCount == w.rowCount
        && row.sensitivity == w.sensitivity
  }

  ghost predicate CallTaken(s: Store, w: Write) {
    exists id :: id in s.rows && SameCall(id, w)
  }

  /** Refusals that come before the table is looked at. */
  function Unwritable(w: Write, now: Utc, limit: nat): Option<StoreError> {
    if w.retentionSeconds < 1 then Some(InvalidWrite)
    else if |w.payload| > limit then Some(PayloadTooLarge)
    else if AddSeconds(now, w.retentionSeconds).None? then Some(ExpiryOverflow)
    else None
  }

  function NewRow(w: Write, now: Utc): Row
    requires AddSeconds(now, w.retentionSeconds).Some?
  {
    Row(w.schemaDigest, w.rowCount, w.sensitivity, Iso(now), Iso(ExpiryOf(w, now)), w.retained)
  }

  function ExpiryOf(w: Write, now: Utc): (expiry: Utc)
    requires AddSeconds(now, w.retentionSeconds).Some?
    ensures Micros(expiry) == Micros(now) + w.retentionSeconds * 1_000_000
  {
    AddSecondsIsExact(now, w.retentionSeconds);
    AddSeconds(now, w.retentionSeconds).value
  }

  ghost function AfterPut(s: Store, w: Write, now: Utc, limit: nat): Store
  {
    if Unwritable(w, now, limit).Some? || CallTaken(s, w) then s
    else Store(s.rows[IdOf(w) := NewRow(w, now)], s.files[IdOf(w) := w.payload])
  }

  /** The rows a deletion at this time takes: not retained, and the expiry text no later. */
  function Due(s: Store, now: Utc): set<ArtifactId>
  {
    set id | id in s.rows && !s.rows[id].retained && TextAtMost(s.rows[id].expiresAt, Iso(now))
  }

  function AfterDelete(s: Store, now: Utc): Store
  {
    Store(s.rows - Due(s, now), s.files - Due(s, now))
  }

  function GetResult(s: Store, id: ArtifactId, limit: nat): Outcome<string, StoreError> {
    if id !in s.rows then Raised(NotFound) else Verified(s, id, limit)
  }

  // ---- what every state keeps ----

  predicate TimesReadBack(row: Row) {
    IsIso(row.createdAt) && IsIso(row.expiresAt)
  }

  ghost predicate OneRowACall(rows: map<ArtifactId, Row>) {
    forall a, b | a in rows && b in rows && a.owner == b.owner && a.callId == b.callId :: a == b
  }

  ghost predicate TableReadsBack(rows: map<ArtifactId, Row>) {
    forall a | a in rows :: TimesReadBack(rows[a])
  }

  ghost predicate FilesIntact(s: Store, limit: nat) {
    && s.files.Keys == s.rows.Keys
    && (forall a | a in s.files :: Sha256(s.files[a]) == a.digest && |s.files[a]| <= limit)
  }

  /** One row a call and stored times that read back: true whatever happens to the files. */
  ghost predicate TableSound(s: Store) {
    OneRowACall(s.rows) && TableReadsBack(s.rows)
  }

  lemma NewRowReadsBack(w: Write, now: Utc)
    requires AddSeconds(now, w.retentionSeconds).Some?
    ensures TimesReadBack(NewRow(w, now))
    ensures FromIso(NewRow(w, now).createdAt) == now
    ensures Micros(FromIso(NewRow(w, now).expiresAt)) == Micros(now) + w.retentionSeconds * 1_000_000
  {
    IsoRoundTrip(now);
    IsoRoundTrip(ExpiryOf(w, now));
  }

  lemma PutKeepsTable(s: Store, w: Write, now: Utc, limit: nat)
    requires TableSound(s)
    ensures TableSound(AfterPut(s, w, now, limit))
  {
    if Unwritable(w, now, limit).None? && !CallTaken(s, w) {
      NewRowReadsBack(w, now);
      RowAdded(s.rows, w, NewRow(w, now));
      RowAddedReadsBack(s.rows, IdOf(w), NewRow(w, now));
    }
  }

  lemma RowAdded(rows: map<ArtifactId, Row>, w: Write, row: Row)
    requires OneRowACall(rows) && !exists id :: id in rows && SameCall(id, w)
    ensures OneRowACall(rows[IdOf(w) := row])
  {
    forall a | a in rows ensures !SameCall(a, w) {
    }
  }

  lemma RowAddedReadsBack(rows: map<ArtifactId, Row>, id: ArtifactId, row: Row)
    requires TableReadsBack(rows) && TimesReadBack(row)
    ensures TableReadsBack(rows[id := row])
  {
  }

  lemma PutKeepsFiles(s: Store, w: Write, now: Utc, limit: nat)
    requires FilesIntact(s, limit)
    ensures FilesIntact(AfterPut(s, w, now, limit), limit)
  {
    if AfterPut(s, w, now, limit) != s {
      FileAdded(s, w, NewRow(w, now), limit);
    }
  }

  lemma FileAdded(s: Store, w: Write, row: Row, limit: nat)
    requires FilesIntact(s, limit) && |w.payload| <= limit
    ensures FilesIntact(Store(s.rows[IdOf(w) := row], s.files[IdOf(w) := w.payload]), limit)
  {
  }

  lemma DeleteKeeps(s: Store, now: Utc, limit: nat)
    ensures TableSound(s) ==> TableSound(AfterDelete(s, now))
    ensures FilesIntact(s, limit) ==> FilesIntact(AfterDelete(s, now), limit)
  {
  }

  // ---- histories ----

  /** What may happen to a store; the last is interference with a payload file from outside. */
  datatype StoreOp =
    | Put(write: Write, now: Utc)
    | DeleteExpired(now: Utc)
    | Damage(id: ArtifactId, content: Option<string>)

  ghost function Perform(s: Store, op: StoreOp, limit: nat): Store
  {
    match op
    case Put(w, now) => AfterPut(s, w, now, limit)
    case DeleteExpired(now) => AfterDelete(s, now)
    case Damage(id, content) =>
      s.(files := if content.None? then s.files - {id} else s.files[id := content.value])
  }

  ghost function PerformAll(s: Store, ops: seq<StoreOp>, limit: nat): Store
  {
    if ops == [] then s else Perform(PerformAll(s, ops[..|ops| - 1], limit), ops[|ops| - 1], limit)
  }

  const EMPTY := Store(map[], map[])

  predicate Undamaged(ops: seq<StoreOp>) {
    forall op | op in ops :: !op.Damage?
  }

  lemma {:induction false} HistoryKeepsTable(s: Store, ops: seq<StoreOp>, limit: nat)
    requires TableSound(s)
    ensures TableSound(PerformAll(s, ops, limit))
    decreases |ops|
  {
    if ops != [] {
      var before, op := ops[..|ops| - 1], ops[|ops| - 1];
      HistoryKeepsTable(s, before, limit);
      match op
      case Put(w, now) => PutKeepsTable(PerformAll(s, before, limit), w, now, limit);
      case DeleteExpired(now) => DeleteKeeps(PerformAll(s, before, limit), now, limit);
      case Damage(_, _) =>
    }
  }

  lemma {:induction false} HistoryKeepsFiles(s: Store, ops: seq<StoreOp>, limit: nat)
    requires Undamaged(ops) && FilesIntact(s, limit)
    ensures FilesIntact(PerformAll(s, ops, limit), limit)
    decreases |ops|
  {
    if ops != [] {
      var before, op := ops[..|ops| - 1], ops[|ops| - 1];
      assert !op.Damage? by { assert op in ops; }
      HistoryKeepsFiles(s, before, limit);
      match op
      case Put(w, now) => PutKeepsFiles(PerformAll(s, before, limit), w, now, limit);
      case DeleteExpired(now) => DeleteKeeps(PerformAll(s, before, limit), now, limit);
      case Damage(_, _) => assert false;
    }
  }

  // ---- what a put promises ----

  /** A first put of its call, with nothing wrong with the request. */
  ghost predicate FreshPut(s: Store, w: Write, now: Utc, limit: nat) {
    Unwritable(w, now, limit).None? && !CallTaken(s, w)
  }

  /** A deletion that takes a row of this expiry time. */
  predicate Takes(op: StoreOp, expiry: Utc, retained: bool) {
    op.DeleteExpired? && !retained && Micros(expiry) <= Micros(op.now)
  }

  predicate Spares(ops: seq<StoreOp>, expiry: Utc, retained: bool) {
    forall op | op in ops :: !Takes(op, expiry, retained)
  }

  /** No operation puts this call again. */
  predicate LeavesCall(ops: seq<StoreOp>, w: Write) {
    forall op | op in ops && op.Put? :: op.write.owner != w.owner || op.write.callId != w.callId
  }

  lemma DueIffTakes(s: Store, id: ArtifactId, expiry: Utc, now: Utc)
    requires id in s.rows && s.rows[id].expiresAt == Iso(expiry)
    ensures id in Due(s, now) <==> Takes(DeleteExpired(now), expiry, s.rows[id].retained)
  {
    TextOrderIsTimeOrder(expiry, now);
  }

  lemma PutLeavesRow(s: Store, id: ArtifactId, w: Write, now: Utc, limit: nat)
    requires id in s.rows
    ensures id in AfterPut(s, w, now, limit).rows && AfterPut(s, w, now, limit).rows[id] == s.rows[id]
  {
    if IdOf(w) == id {
      assert SameCall(id, w);
    }
  }

  lemma {:induction false} RowStays(s: Store, id: ArtifactId, expiry: Utc, ops: seq<StoreOp>, limit: nat)
    requires id in s.rows && s.rows[id].expiresAt == Iso(expiry) && Spares(ops, expiry, s.rows[id].retained)
    ensures id in PerformAll(s, ops, limit).rows && PerformAll(s, ops, limit).rows[id] == s.rows[id]
    decreases |ops|
  {
    if ops != [] {
      var before, op := ops[..|ops| - 1], ops[|ops| - 1];
      RowStays(s, id, expiry, before, limit);
      var t := PerformAll(s, before, limit);
      if op.Put? {
        PutLeavesRow(t, id, op.write, op.now, limit);
      } else if op.DeleteExpired? {
        assert op in ops;
        DueIffTakes(t, id, expiry, op.now);
      }
    }
  }

  lemma {:induction false} RowLeaves(s: Store, w: Write, expiry: Utc, ops: seq<StoreOp>, limit: nat)
    requires IdOf(w) in s.rows && s.rows[IdOf(w)].expiresAt == Iso(expiry)
    requires LeavesCall(ops, w) && !Spares(ops, expiry, s.rows[IdOf(w)].retained)
    ensures IdOf(w) !in PerformAll(s, ops, limit).rows
    decreases |ops|
  {
    hide TextAtMost, IsoInstant.Valid;
    var before, op := ops[..|ops| - 1], ops[|ops| - 1];
    assert op in ops && forall o | o in before :: o in ops;
    var t := PerformAll(s, before, limit);
    if Spares(before, expiry, s.rows[IdOf(w)].retained) {
      RowStays(s, IdOf(w), expiry, before, limit);
      assert Takes(op, expiry, s.rows[IdOf(w)].retained);
      DueIffTakes(t, IdOf(w), expiry, op.now);
    } else {
      RowLeaves(s, w, expiry, before, limit);
    }
  }

  /**
   * A put is readable until a deletion at or after its expiry time, and never after it unless the
   * call is put again; a retained one is always readable.
   */
  lemma ReadableUntilExpiry(s: Store, w: Write, now: Utc, ops: seq<StoreOp>, limit: nat)
    requires FilesIntact(s, limit) && FreshPut(s, w, now, limit) && Undamaged(ops)
    ensures Spares(ops, ExpiryOf(w, now), w.retained) ==>
              GetResult(PerformAll(AfterPut(s, w, now, limit), ops, limit), IdOf(w), limit) == Returned(w.payload)
    ensures !Spares(ops, ExpiryOf(w, now), w.retained) && LeavesCall(ops, w) ==>
              GetResult(PerformAll(AfterPut(s, w, now, limit), ops, limit), IdOf(w), limit) == Raised(NotFound)
  {
    var expiry := ExpiryOf(w, now);
    var put := AfterPut(s, w, now, limit);
    PutKeepsFiles(s, w, now, limit);
    HistoryKeepsFiles(put, ops, limit);
    if Spares(ops, expiry, w.retained) {
      RowStays(put, IdOf(w), expiry, ops, limit);
    } else if LeavesCall(ops, w) {
      RowLeaves(put, w, expiry, ops, limit);
    }
  }

  ghost function PutResult(s: Store, w: Write, now: Utc, limit: nat): Outcome<StoredRef, StoreError>
    requires TableSound(s)
  {
    if Unwritable(w, now, limit).Some? then Raised(Unwritable(w, now, limit).value)
    else if CallTaken(s, w) then
      var id :| id in s.rows && SameCall(id, w);
      RowReadsBack(s, id);
      Repeated(s, id, w, limit)
    else
      NewRowReadsBack(w, now);
      Returned(RefOf(IdOf(w), NewRow(w, now)))
  }

  lemma RowReadsBack(s: Store, id: ArtifactId)
    requires TableSound(s) && id in s.rows
    ensures IsIso(s.rows[id].createdAt)
  {
    assert TimesReadBack(s.rows[id]);
  }

  /** The answer to a put whose call has a row already. */
  function Repeated(s: Store, id: ArtifactId, w: Write, limit: nat): Outcome<StoredRef, StoreError>
    requires id in s.rows && IsIso(s.rows[id].createdAt)
  {
    if !SameMetadata(id, s.rows[id], w) then Raised(IntegrityError)
    else
      match Verified(s, id, limit)
      case Raised(e) => Raised(e)
      case Returned(_) => Returned(RefOf(id, s.rows[id]))
  }

  lemma TakenByOne(s: Store, w: Write, now: Utc, id: ArtifactId, limit: nat)
    requires TableSound(s) && id in s.rows && SameCall(id, w) && Unwritable(w, now, limit).None?
    ensures IsIso(s.rows[id].createdAt)
    ensures PutResult(s, w, now, limit) == Repeated(s, id, w, limit) && AfterPut(s, w, now, limit) == s
  {
    RowReadsBack(s, id);
    assert CallTaken(s, w);
  }

  /**
   * While its row lives, a call answers every repeated put of the same content with the reference of
   * the first, rejects any other content, and changes nothing either way.
   */
  lemma RepeatedPutIsStable(s: Store, w: Write, now: Utc, ops: seq<StoreOp>, again: Write, later: Utc, limit: nat)
    requires TableSound(s) && FilesIntact(s, limit) && FreshPut(s, w, now, limit) && Undamaged(ops)
    requires Spares(ops, ExpiryOf(w, now), w.retained)
    requires again.owner == w.owner && again.callId == w.callId && Unwritable(again, later, limit).None?
    ensures TableSound(PerformAll(AfterPut(s, w, now, limit), ops, limit))
    ensures AfterPut(PerformAll(AfterPut(s, w, now, limit), ops, limit), again, later, limit)
            == PerformAll(AfterPut(s, w, now, limit), ops, limit)
    ensures PutResult(PerformAll(AfterPut(s, w, now, limit), ops, limit), again, later, limit)
            == if SameContent(w, again) then PutResult(s, w, now, limit) else Raised(IntegrityError)
  {
    hide IsIso;
    var put := AfterPut(s, w, now, limit);
    PutKeepsTable(s, w, now, limit);
    HistoryKeepsTable(put, ops, limit);
    RowStays(put, IdOf(w), ExpiryOf(w, now), ops, limit);
    ReadableUntilExpiry(s, w, now, ops, limit);
    NewRowReadsBack(w, now);
    TakenByOne(PerformAll(put, ops, limit), again, later, IdOf(w), limit);
  }

  /** What a repeated put must agree on; retention may differ, and the first one's stands. */
  predicate SameContent(a: Write, b: Write) {
    a.kind == b.kind && a.payload == b.payload && a.schemaDigest == b.schemaDigest
    && a.rowCount == b.rowCount && a.sensitivity == b.sensitivity
  }

  /** A first put answers with what was asked for and the time of the put. */
  lemma FreshPutResult(s: Store, w: Write, now: Utc, limit: nat)
    requires TableSound(s) && FreshPut(s, w, now, limit)
    ensures PutResult(s, w, now, limit) == Returned(StoredRef(IdOf(w), w.schemaDigest, w.rowCount, w.sensitivity, now))
  {
    NewRowReadsBack(w, now);
  }

  /** A write is refused for no second of retention, for its size, or for expiring past the calendar, in this order. */
  lemma UnwritableIff(w: Write, now: Utc, limit: nat)
    ensures var late := Micros(now) + w.retentionSeconds * 1_000_000 > Micros(LAST_INSTANT);
            Unwritable(w, now, limit) ==
              if w.retentionSeconds == 0 then Some(InvalidWrite)
              else if |w.payload| > limit then Some(PayloadTooLarge)
              else if late then Some(ExpiryOverflow) else None
  {
    hide AddSeconds, Micros;
    AddSecondsIff(now, w.retentionSeconds);
  }

  /** The call has a row whose content the write repeats, with its file intact. */
  ghost predicate Repeats(s: Store, w: Write, limit: nat) {
    && IdOf(w) in s.rows && IdOf(w) in s.files && s.files[IdOf(w)] == w.payload && |w.payload| <= limit
    && s.rows[IdOf(w)].schemaDigest == w.schemaDigest && s.rows[IdOf(w)].rowCount == w.rowCount
    && s.rows[IdOf(w)].sensitivity == w.sensitivity
  }

  /** A put that may be written is refused exactly when its call has a row that it does not repeat. */
  lemma PutRefusedIff(s: Store, w: Write, now: Utc, limit: nat)
    requires TableSound(s)
    ensures var r := PutResult(s, w, now, limit);
            if Unwritable(w, now, limit).Some? then r == Raised(Unwritable(w, now, limit).value)
            else
              && (r.Raised? <==> CallTaken(s, w) && !Repeats(s, w, limit))
              && (r.Raised? ==> r.error.IntegrityError?)
  {
    hide IsIso, AddSeconds, NewRow, Unwritable;
    if Unwritable(w, now, limit).None? && CallTaken(s, w) {
      var id :| id in s.rows && SameCall(id, w);
      TakenByOne(s, w, now, id, limit);
      RepeatedIff(s, id, w, limit);
    }
  }

  lemma RepeatedIff(s: Store, id: ArtifactId, w: Write, limit: nat)
    requires TableSound(s) && id in s.rows && SameCall(id, w) && IsIso(s.rows[id].createdAt)
    ensures Repeated(s, id, w, limit).Raised? <==> !Repeats(s, w, limit)
    ensures Repeated(s, id, w, limit).Raised? ==> Repeated(s, id, w, limit).error.IntegrityError?
  {
    hide IsIso;
    if IdOf(w) in s.rows {
      assert IdOf(w) == id;
    }
  }

  /** What is read is the file of the row, whole and unaltered; anything else about the file is an integrity error. */
  lemma ReadIff(s: Store, id: ArtifactId, limit: nat, payload: string)
    ensures var r := GetResult(s, id, limit);
            && (r == Returned(payload) <==>
                  id in s.rows && id in s.files && s.files[id] == payload && |payload| <= limit
                  && id.digest == Sha256(payload))
            && (r.Raised? ==> r.error == if id in s.rows then IntegrityError else NotFound)
  {
  }

  // ---- rows in the order of one of their times ----

  /** One time column of a set of rows. */
  type Times = map<ArtifactId, string>

  function CreationTimes(rows: map<ArtifactId, Row>): Times {
    map id | id in rows :: rows[id].createdAt
  }

  function ExpiryTimes(rows: map<ArtifactId, Row>): Times {
    map id | id in rows :: rows[id].expiresAt
  }

  predicate NotAfter(times: Times, a: ArtifactId, b: ArtifactId) {
    a in times && b in times && TextAtMost(times[a], times[b])
  }

  ghost predicate AllIso(times: Times) {
    forall id | id in times :: IsIso(times[id])
  }

  lemma TimesAreIso(rows: map<ArtifactId, Row>)
    requires TableReadsBack(rows)
    ensures AllIso(CreationTimes(rows)) && AllIso(ExpiryTimes(rows))
  {
    forall id | id in rows ensures IsIso(rows[id].createdAt) && IsIso(rows[id].expiresAt) {
      assert TimesReadBack(rows[id]);
    }
  }

  lemma NotAfterByTime(times: Times, a: ArtifactId, b: ArtifactId)
    requires AllIso(times) && a in times && b in times
    ensures NotAfter(times, a, b) <==> MicrosAt(times, a) <= MicrosAt(times, b)
  {
    TextOrderIsTimeOrder(FromIso(times[a]), FromIso(times[b]));
  }

  function MicrosAt(times: Times, id: ArtifactId): int {
    if id in times && IsIso(times[id]) then Micros(FromIso(times[id])) else 0
  }

  lemma {:induction false} LeastExists(key: ArtifactId -> int, ids: set<ArtifactId>) returns (first: ArtifactId)
    requires ids != {}
    ensures first in ids && forall other | other in ids :: key(first) <= key(other)
  {
    first :| first in ids;
    if ids != {first} {
      var rest := LeastExists(key, ids - {first});
      if key(rest) < key(first) {
        first := rest;
      }
    }
  }

  ghost predicate Earliest(times: Times, ids: set<ArtifactId>, first: ArtifactId) {
    first in ids && forall other | other in ids :: NotAfter(times, first, other)
  }

  lemma EarliestExists(times: Times, ids: set<ArtifactId>) returns (first: ArtifactId)
    requires AllIso(times) && ids <= times.Keys && ids != {}
    ensures Earliest(times, ids, first)
  {
    first := LeastExists(id => MicrosAt(times, id), ids);
    forall other | other in ids ensures NotAfter(times, first, other) {
      NotAfterByTime(times, first, other);
    }
  }

  ghost predicate HasEarliest(times: Times, ids: set<ArtifactId>) {
    forall some: set<ArtifactId> | some <= ids && some != {} :: exists first :: Earliest(times, some, first)
  }

  lemma TimesHaveEarliest(times: Times, ids: set<ArtifactId>)
    requires AllIso(times) && ids <= times.Keys
    ensures HasEarliest(times, ids)
  {
    forall some: set<ArtifactId> | some <= ids && some != {} ensures exists first :: Earliest(times, some, first) {
      var first := EarliestExists(times, some);
      assert Earliest(times, some, first);
    }
  }

  /** Distinct, and earliest first. */
  ghost predicate InTimeOrder(times: Times, ids: seq<ArtifactId>) {
    forall i, j | 0 <= i < j < |ids| :: ids[i] != ids[j] && NotAfter(times, ids[i], ids[j])
  }

  lemma AppendInOrder(times: Times, ids: seq<ArtifactId>, id: ArtifactId)
    requires InTimeOrder(times, ids) && id !in ids && forall other | other in ids :: NotAfter(times, other, id)
    ensures InTimeOrder(times, ids + [id])
  {
  }

  /** The selected rows in the order of the query. */
  method OrderByTime(times: Times, ids: set<ArtifactId>) returns (selected: seq<ArtifactId>)
    requires HasEarliest(times, ids)
    ensures forall id :: id in selected <==> id in ids
    ensures InTimeOrder(times, selected)
  {
    var remaining := ids;
    selected := [];
    while remaining != {}
      invariant remaining <= ids
      invariant forall id :: id in selected <==> id in ids && id !in remaining
      invariant InTimeOrder(times, selected)
      invariant forall a, b | a in selected && b in remaining :: NotAfter(times, a, b)
      decreases |remaining|
    {
      ghost var first :| Earliest(times, remaining, first);
      var id :| id in remaining && forall other | other in remaining :: NotAfter(times, id, other);
      AppendInOrder(times, selected, id);
      selected := selected + [id];
      remaining := remaining - {id};
    }
  }

  lemma RemovedOneMore(all: map<ArtifactId, Row>, files: map<ArtifactId, string>, ids: seq<ArtifactId>, i: nat)
    requires i < |ids|
    ensures Without(all, ids[..i]) - {ids[i]} == Without(all, ids[..i + 1])
    ensures Without(files, ids[..i]) - {ids[i]} == Without(files, ids[..i + 1])
  {
    assert forall id :: id in ids[..i + 1] <==> id in ids[..i] || id == ids[i];
  }

  lemma WithoutDue(s: Store, due: set<ArtifactId>, ids: seq<ArtifactId>)
    requires forall id :: id in ids <==> id in due
    ensures Store(Without(s.rows, ids), Without(s.files, ids)) == Store(s.rows - due, s.files - due)
  {
    assert Without(s.rows, ids) == s.rows - due && Without(s.files, ids) == s.files - due;
  }

  function Without<T>(m: map<ArtifactId, T>, ids: seq<ArtifactId>): map<ArtifactId, T> {
    map id | id in m && id !in ids :: m[id]
  }

  function RefIds(refs: seq<StoredRef>): (ids: seq<ArtifactId>)
    ensures |ids| == |refs|
  {
    seq(|refs|, i requires 0 <= i < |refs| => refs[i].artifactId)
  }

  /** The reference is that of a row of this owner. */
  predicate ListedAs(rows: map<ArtifactId, Row>, owner: Owner, ref: StoredRef) {
    && Readable(rows, ref.artifactId) && ref.artifactId.owner == owner
    && ref == RefOf(ref.artifactId, rows[ref.artifactId])
  }

  predicate Readable(rows: map<ArtifactId, Row>, id: ArtifactId) {
    id in rows && IsIso(rows[id].createdAt)
  }

  function RefsOf(rows: map<ArtifactId, Row>, ids: seq<ArtifactId>): (refs: seq<StoredRef>)
    requires forall i | 0 <= i < |ids| :: Readable(rows, ids[i])
    ensures |refs| == |ids|
  {
    seq(|ids|, i requires 0 <= i < |ids| && Readable(rows, ids[i]) => RefOf(ids[i], rows[ids[i]]))
  }

  /** The references of one run's rows, oldest first. */
  method ListRows(rows: map<ArtifactId, Row>, owner: Owner) returns (refs: seq<StoredRef>)
    requires AllIso(CreationTimes(rows))
    ensures forall ref | ref in refs :: ListedAs(rows, owner, ref)
    ensures forall id | id in rows && id.owner == owner :: id in RefIds(refs)
    ensures InTimeOrder(CreationTimes(rows), RefIds(refs))
  {
    var ids := set id | id in rows && id.owner == owner;
    TimesHaveEarliest(CreationTimes(rows), ids);
    var selected := OrderByTime(CreationTimes(rows), ids);
    forall i | 0 <= i < |selected| ensures Readable(rows, selected[i]) {
      assert selected[i] in selected;
      assert IsIso(CreationTimes(rows)[selected[i]]);
    }
    refs := RefsOf(rows, selected);
    assert RefIds(refs) == selected;
    forall ref | ref in refs ensures ListedAs(rows, owner, ref) {
      var i :| 0 <= i < |refs| && refs[i] == ref;
      assert selected[i] in selected;
    }
  }

  // ---- the store object ----

  class SQLiteArtifactStore {
    const maxArtifactBytes: nat
    var rows: map<ArtifactId, Row>
    var files: map<ArtifactId, string>

    ghost function View(): Store
      reads this
    {
      Store(rows, files)
    }

    ghost predicate Valid()
      reads this
    {
      TableSound(View())
    }

    constructor (maxArtifactBytes: nat)
      ensures Valid() && View() == EMPTY && this.maxArtifactBytes == maxArtifactBytes
    {
      this.maxArtifactBytes := maxArtifactBytes;
      rows, files := map[], map[];
    }

    method PutJson(w: Write, now: Utc) returns (r: Outcome<StoredRef, StoreError>)
      requires Valid()
      modifies this`rows, this`files
      ensures Valid() && View() == AfterPut(old(View()), w, now, maxArtifactBytes)
      ensures r == PutResult(old(View()), w, now, maxArtifactBytes)
    {
      hide IsIso, TableSound, NewRow;
      PutKeepsTable(View(), w, now, maxArtifactBytes);
      if w.retentionSeconds < 1 {
        return Raised(InvalidWrite);
      }
      if |w.payload| > maxArtifactBytes {
        return Raised(PayloadTooLarge);
      }
      var expiresAt := AddSeconds(now, w.retentionSeconds);
      if expiresAt.None? {
        return Raised(ExpiryOverflow);
      }
      if id :| id in rows && id.owner == w.owner && id.callId == w.callId {
        TakenByOne(View(), w, now, id, maxArtifactBytes);
        if !SameMetadata(id, rows[id], w) {
          return Raised(IntegrityError);
        }
        var read := ReadAndVerify(id);
        return match read case Raised(e) => Raised(e) case Returned(_) => Returned(RefOf(id, rows[id]));
      }
      NewRowReadsBack(w, now);
      assert !CallTaken(View(), w);
      files := files[IdOf(w) := w.payload];
      rows := rows[IdOf(w) := NewRow(w, now)];
      return Returned(RefOf(IdOf(w), rows[IdOf(w)]));
    }

    method ReadAndVerify(id: ArtifactId) returns (r: Outcome<string, StoreError>)
      ensures r == Verified(View(), id, maxArtifactBytes)
    {
      if id !in files {
        return Raised(IntegrityError);
      }
      if |files[id]| > maxArtifactBytes {
        return Raised(IntegrityError);
      }
      if Sha256(files[id]) != id.digest {
        return Raised(IntegrityError);
      }
      return Returned(files[id]);
    }

    /** Whatever was done to the files, what comes back is what was put under the id, or an error. */
    method GetJson(id: ArtifactId) returns (r: Outcome<string, StoreError>)
      ensures r == GetResult(View(), id, maxArtifactBytes)
      ensures r.Returned? ==> Sha256(r.value) == id.digest
    {
      if id !in rows {
        return Raised(NotFound);
      }
      r := ReadAndVerify(id);
    }

    method ListForRun(owner: Owner) returns (refs: seq<StoredRef>)
      requires Valid()
      ensures forall ref | ref in refs :: ListedAs(rows, owner, ref)
      ensures forall id | id in rows && id.owner == owner :: id in RefIds(refs)
      ensures InTimeOrder(CreationTimes(rows), RefIds(refs))
    {
      TimesAreIso(rows);
      refs := ListRows(rows, owner);
    }

    /** Rows and files of the expired go together, earliest expiry first. */
    method DeleteExpired(now: Utc) returns (deleted: seq<ArtifactId>)
      requires Valid()
      modifies this`rows, this`files
      ensures Valid() && View() == AfterDelete(old(View()), now)
      ensures forall id :: id in deleted <==> id in Due(old(View()), now)
      ensures InTimeOrder(ExpiryTimes(old(rows)), deleted)
    {
      DeleteKeeps(View(), now, maxArtifactBytes);
      var due := Due(Store(rows, files), now);
      TimesAreIso(rows);
      TimesHaveEarliest(ExpiryTimes(rows), due);
      var selected := OrderByTime(ExpiryTimes(rows), due);
      Remove(selected);
      WithoutDue(old(View()), due, selected);
      return selected;
    }

    method Remove(ids: seq<ArtifactId>)
      modifies this`rows, this`files
      ensures rows == Without(old(rows), ids) && files == Without(old(files), ids)
    {
      for i := 0 to |ids|
        invariant rows == Without(old(rows), ids[..i]) && files == Without(old(files), ids[..i])
      {
        RemovedOneMore(old(rows), old(files), ids, i);
        if ids[i] in files {
          files := files - {ids[i]};
        }
        rows := rows - {ids[i]};
      }
      assert ids[..|ids|] == ids;
    }
  }
}
