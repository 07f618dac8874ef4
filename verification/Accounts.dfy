/** The transactions on one account, as functions from the committed state before to the one after. */
module Accounts {
  import opened Domain
  import opened Ordered

  /**
   * Everything PostgreSQL holds for one account. `clock` is the database clock, read once by a
   * transaction; `log` is the event history before any retention; `issued` are the scan tokens
   * handed out so far.
   */
  datatype Account = Account(
    cfg: Config,
    clock: Time,
    epoch: Uuid,
    vault: Option<Vault>,
    devices: map<Uuid, Option<Time>>,
    nextSeq: nat,
    minAvailableSeq: nat,
    itemCount: int,
    ciphertextBytes: int,
    clipIds: map<Uuid, Registration>,
    clips: map<Uuid, Clip>,
    events: map<nat, Event>,
    receipts: map<Uuid, StoredReceipt>,
    snapshots: map<nat, SnapshotSession>,
    issued: set<nat>,
    log: seq<Event>)

  function Fresh(cfg: Config, clock: Time, epoch: Uuid): Account {
    Account(cfg, clock, epoch, None, map[], 0, 1, 0, 0, map[], map[], map[], map[], map[], {}, [])
  }

  // ----- the three writes that append an event -----

  function NewEvent(a: Account, id: Uuid, kind: EventKind, version: nat): Event {
    Event(a.nextSeq + 1, id, kind, version, a.clock)
  }

  function Append(a: Account, e: Event): Account {
    a.(nextSeq := e.seqNo, events := a.events[e.seqNo := e], log := a.log + [e])
  }

  function InsertedClip(a: Account, env: Envelope): Clip {
    Clip(env, Active, 1, a.nextSeq + 1, a.nextSeq + 1, a.clock, None, None)
  }

  function Insert(a: Account, env: Envelope, hash: Digest): Account {
    Append(a, NewEvent(a, env.id, Created, 1)).(
      itemCount := a.itemCount + 1,
      ciphertextBytes := a.ciphertextBytes + |env.ciphertext|,
      clipIds := a.clipIds[env.id := Registration(hash, a.nextSeq + 1, a.clock, None)],
      clips := a.clips[env.id := InsertedClip(a, env)])
  }

  function BumpedClip(a: Account, c: Clip, status: Status): Clip {
    var times := if status == Trash then (Some(a.clock), Some(a.clock + TRASH_PERIOD)) else (None, None);
    c.(status := status, version := c.version + 1, lastSeq := a.nextSeq + 1,
       deletedAt := times.0, expiresAt := times.1)
  }

  function Bump(a: Account, id: Uuid, status: Status): Account
    requires id in a.clips
  {
    var c := BumpedClip(a, a.clips[id], status);
    var kind := if status == Trash then Trashed else Restored;
    Append(a, NewEvent(a, id, kind, c.version)).(clips := a.clips[id := c])
  }

  function BuriedId(a: Account, id: Uuid): Registration
    requires id in a.clips && id in a.clipIds
  {
    a.clipIds[id].(tomb := Some(Tombstone(a.clips[id].version + 1, a.nextSeq + 1, a.clock)))
  }

  function Purge(a: Account, id: Uuid): Account
    requires id in a.clips && id in a.clipIds
  {
    Append(a, NewEvent(a, id, Purged, a.clips[id].version + 1)).(
      itemCount := a.itemCount - 1,
      ciphertextBytes := a.ciphertextBytes - |a.clips[id].env.ciphertext|,
      clipIds := a.clipIds[id := BuriedId(a, id)],
      clips := a.clips - {id})
  }

  // ----- create -----

  /** The CHECK constraints of the clips table. */
  predicate RowChecks(env: Envelope) {
    && env.formatVersion == 1 && env.keyEpoch == 1 && env.contentType == "text/plain"
    && |env.nonce| == 12 && 17 <= |env.ciphertext| <= 65552
    && (env.deliveryIntent == "live" || env.deliveryIntent == "history_only")
  }

  function CreateReceipt(id: Uuid, seqNo: nat, at: Time): Receipt {
    Receipt(id, IsActive, 1, seqNo, Some(at), None, None)
  }

  /** The checks that come before the registry lookup. */
  function Admit(a: Account, device: Uuid, env: Envelope): Option<Error> {
    if env.sourceDeviceId != device then Some(InvalidRequest)
    else if a.vault != Some(Vault(env.vaultId, env.keyEpoch)) then Some(InvalidRequest)
    else if device !in a.devices || a.devices[device].Some? then Some(DeviceRevoked)
    else None
  }

  predicate WithinQuota(a: Account, env: Envelope) {
    && a.itemCount + 1 <= a.cfg.maxItems
    && a.ciphertextBytes + |env.ciphertext| <= a.cfg.maxCiphertextBytes
  }

  function CreateClip(a: Account, device: Uuid, env: Envelope, hash: Digest): (Account, Result<CreateResult>) {
    var refused := Admit(a, device, env);
    if refused.Some? then (a, Err(refused.value))
    else if env.id in a.clipIds then
      var reg := a.clipIds[env.id];
      if reg.hash != hash then (a, Err(IdempotencyConflict))
      else (a, Ok(CreateResult(CreateReceipt(env.id, reg.createdSeq, reg.createdAt), false)))
    else if !WithinQuota(a, env) then (a, Err(QuotaExceeded))
    else if !RowChecks(env) then (a, Err(Unavailable))
    else (Insert(a, env, hash), Ok(CreateResult(CreateReceipt(env.id, a.nextSeq + 1, a.clock), true)))
  }

  // ----- trash, restore, purge -----

  predicate IsExpired(c: Clip, now: Time) {
    c.status == Trash && c.expiresAt.Some? && c.expiresAt.value <= now
  }

  function GoneError(a: Account, id: Uuid): Error {
    if id in a.clipIds && a.clipIds[id].tomb.Some? then
      ClipPurged(a.clipIds[id].tomb.value.version, a.clipIds[id].tomb.value.seqNo)
    else NotFound
  }

  function Conflict(c: Clip): Error {
    VersionConflict(c.status, c.version, c.lastSeq)
  }

  function BumpReceipt(c: Clip): Receipt {
    var status := if c.status == Trash then IsTrash else IsActive;
    Receipt(c.env.id, status, c.version, c.lastSeq, None, c.deletedAt, c.expiresAt)
  }

  /**
   * `skewed` says that the two clock readings of the trash statement differ; the row CHECK on the
   * 168 hours then aborts the transaction.
   */
  function ApplyMutation(a: Account, id: Uuid, kind: MutationKind, expected: int, skewed: bool): (Account,
      Result<Receipt>) {
    if id !in a.clips || id !in a.clipIds then (a, Err(GoneError(a, id)))
    else
      var c := a.clips[id];
      if c.version != expected then (a, Err(Conflict(c)))
      else match kind {
        case TrashOp =>
          if c.status != Active then (a, Err(Conflict(c)))
          else if skewed then (a, Err(Unavailable))
          else (Bump(a, id, Trash), Ok(BumpReceipt(BumpedClip(a, c, Trash))))
        case RestoreOp =>
          if c.status != Trash then (a, Err(Conflict(c)))
          else if c.expiresAt.Some? && c.expiresAt.value <= a.clock then
            (a, Err(TrashExpired(c.version, c.lastSeq, c.expiresAt.value)))
          else (Bump(a, id, Active), Ok(BumpReceipt(BumpedClip(a, c, Active))))
        case PurgeOp =>
          if c.status != Trash then (a, Err(Conflict(c)))
          else (Purge(a, id), Ok(Receipt(c.env.id, IsPurged, c.version + 1, a.nextSeq + 1, None, None, None)))
      }
  }

  predicate ReceiptLives(a: Account, op: Uuid) {
    op in a.receipts && a.receipts[op].expiresAt > a.clock
  }

  function MutateClip(a: Account, id: Uuid, op: Uuid, kind: MutationKind, expected: int, hash: Digest, skewed: bool)
    : (Account, Result<Receipt>)
  {
    if ReceiptLives(a, op) then
      if a.receipts[op].hash != hash then (a, Err(IdempotencyConflict))
      else (a, Ok(a.receipts[op].receipt))
    else
      var (b, r) := ApplyMutation(a, id, kind, expected, skewed);
      if r.Err? then (a, r)
      // an expired receipt that CleanupAux has not removed yet still holds the primary key
      else if op in a.receipts then (a, Err(Unavailable))
      else (b.(receipts := b.receipts[op := StoredReceipt(hash, r.value, a.clock + RECEIPT_PERIOD)]), r)
  }

  // ----- reads -----

  /** What the server still shows of a clip: expired trash counts as gone. */
  predicate Visible(a: Account, id: Uuid) {
    id in a.clips && !IsExpired(a.clips[id], a.clock)
  }

  function GetClip(a: Account, id: Uuid): Result<Clip> {
    if id !in a.clips then Err(GoneError(a, id))
    else
      var c := a.clips[id];
      if IsExpired(c, a.clock) then Err(TrashExpired(c.version, c.lastSeq, c.expiresAt.value)) else Ok(c)
  }

  /** The row condition of ListClips. */
  predicate Listed(a: Account, f: Filter, id: Uuid) {
    && id in a.clips
    && var c := a.clips[id];
       && c.status == f.status
       && (f.device.Some? ==> c.env.sourceDeviceId == f.device.value)
       && (f.since.Some? ==> f.since.value <= c.createdAt)
       && (f.until.Some? ==> c.createdAt < f.until.value)
       && (c.status == Trash ==> c.expiresAt.Some? && a.clock < c.expiresAt.value)
  }

  /** (created_seq, id) < (token.createdSeq, token.id). */
  predicate PlaceBehind(createdSeq: nat, id: Uuid, after: Option<PageToken>) {
    after.Some? ==> createdSeq < after.value.createdSeq || (createdSeq == after.value.createdSeq && id < after.value.id)
  }

  predicate Behind(c: Clip, after: Option<PageToken>) {
    PlaceBehind(c.createdSeq, c.env.id, after)
  }

  function ListRows(a: Account, f: Filter, after: Option<PageToken>): set<Uuid> {
    set id | id in a.clips && Listed(a, f, id) && Behind(a.clips[id], after)
  }

  function CreatedSeqs(a: Account, ids: set<Uuid>): set<nat> {
    set id | id in ids && id in a.clips :: a.clips[id].createdSeq
  }

  predicate HasClipAt(a: Account, seqNo: nat) {
    exists id :: id in a.clips && a.clips[id].createdSeq == seqNo
  }

  ghost function ClipAt(a: Account, seqNo: nat): (c: Clip)
    requires HasClipAt(a, seqNo)
  {
    var id :| id in a.clips && a.clips[id].createdSeq == seqNo;
    a.clips[id]
  }

  /** ORDER BY created_seq DESC; no two clips share a created_seq, so the id never decides. */
  ghost function ListPage(a: Account, f: Filter, after: Option<PageToken>, limit: nat): ClipPage
    requires limit > 0
  {
    var seqs := Descending(CreatedSeqs(a, ListRows(a, f, after)));
    DescendingIsSorted(CreatedSeqs(a, ListRows(a, f, after)));
    assert forall i :: 0 <= i < |seqs| ==> seqs[i] in seqs;
    var items := seq(Min(limit, |seqs|), i requires 0 <= i < Min(limit, |seqs|) => ClipAt(a, seqs[i]));
    ClipPage(items,
             if |seqs| > limit then Some(PageToken(items[limit - 1].createdSeq, items[limit - 1].env.id)) else None)
  }

  // ----- change pages -----

  /** SELECT ... WHERE seq > after AND seq <= high ORDER BY seq LIMIT limit. */
  function Query(events: map<nat, Event>, after: nat, high: nat, limit: nat): seq<Event>
    decreases high - after
  {
    if after >= high || limit == 0 then []
    else if after + 1 in events then [events[after + 1]] + Query(events, after + 1, high, limit - 1)
    else Query(events, after + 1, high, limit)
  }

  /**
   * Changes makes two reads: counters first, rows second. `a` is the state the first one sees and
   * `b` the state the second one sees; with one consistent read they are the same.
   */
  function SplitChanges(a: Account, b: Account, epoch: Uuid, after: nat, limit: nat): Result<ChangePage> {
    if epoch != a.epoch || after > a.nextSeq then Err(SyncResetRequired(a.epoch))
    else if after + 1 < a.minAvailableSeq then Err(CursorExpired(a.epoch, a.minAvailableSeq))
    else
      var events := Query(b.events, after, a.nextSeq, limit);
      var next := if |events| > 0 then events[|events| - 1].seqNo else after;
      Ok(ChangePage(a.epoch, events, next, a.nextSeq, next < a.nextSeq))
  }

  function Changes(a: Account, epoch: Uuid, after: nat, limit: nat): Result<ChangePage> {
    SplitChanges(a, a, epoch, after, limit)
  }

  // ----- snapshot scans -----

  function BeginSnapshot(a: Account, device: Uuid, token: nat): (Account, Result<Snapshot>) {
    // tokens carry 256 random bits: one that was handed out before does not come again
    if token in a.issued || device !in a.devices then (a, Err(Unavailable))
    else
      var s := SnapshotSession(device, a.nextSeq, a.epoch, a.clock + SNAPSHOT_PERIOD);
      (a.(snapshots := a.snapshots[token := s], issued := a.issued + {token}),
       Ok(Snapshot(token, s.baseSeq, s.epoch, s.expiresAt)))
  }

  /** The rows a scan still has to return: they only get fewer, whatever other devices do. */
  function ScanRows(a: Account, base: nat, after: Uuid): set<Uuid> {
    set id | id in a.clips && a.clips[id].createdSeq <= base && after < id
  }

  function ScanVisible(a: Account, base: nat, after: Uuid): set<Uuid> {
    set id | id in ScanRows(a, base, after) && Visible(a, id)
  }

  /** One page: visible rows in id order, one row more than the limit deciding whether a token follows. */
  ghost function ScanPage(a: Account, base: nat, after: Uuid, limit: nat): (seq<Clip>, Option<Uuid>)
    requires limit > 0
  {
    var ids := Ascending(ScanVisible(a, base, after));
    AscendingIsSorted(ScanVisible(a, base, after));
    assert forall i :: 0 <= i < |ids| ==> ids[i] in ids;
    var taken := if |ids| > limit then ids[..limit] else ids;
    (seq(|taken|, i requires 0 <= i < |taken| => a.clips[taken[i]]),
     if |ids| > limit then Some(taken[limit - 1]) else None)
  }

  ghost function SnapshotRead(a: Account, device: Uuid, token: nat, page: Option<Uuid>,
      limit: nat): Result<SnapshotPage>
    requires limit > 0
  {
    if token !in a.snapshots then Err(SnapshotExpired)
    else
      var s := a.snapshots[token];
      if s.device != device then Err(NotFound)
      else if s.epoch != a.epoch then Err(SyncResetRequired(a.epoch))
      else if s.expiresAt <= a.clock then Err(SnapshotExpired)
      else
        var p := ScanPage(a, s.baseSeq, if page.Some? then page.value else NIL_UUID, limit);
        Ok(SnapshotPage(s.baseSeq, s.epoch, p.0, p.1))
  }

  // ----- background jobs -----

  const BATCH: nat := 100

  function Expired(a: Account): set<Uuid> {
    set id | id in a.clips && IsExpired(a.clips[id], a.clock)
  }

  function ExpiryOf(c: Clip): Time {
    if c.expiresAt.Some? then c.expiresAt.value else 0
  }

  /** ORDER BY expires_at, id. */
  predicate Sooner(clips: map<Uuid, Clip>, x: Uuid, y: Uuid)
    requires x in clips && y in clips
  {
    var t, u := ExpiryOf(clips[x]), ExpiryOf(clips[y]);
    t < u || (t == u && x < y)
  }

  /** One row of the batch: the row is looked at again before it is purged. */
  function PurgeIfExpired(a: Account, id: Uuid): Account {
    if id in a.clips && id in a.clipIds && IsExpired(a.clips[id], a.clock) then Purge(a, id) else a
  }

  function PurgeAll(a: Account, ids: seq<Uuid>): Account {
    if |ids| == 0 then a
    else PurgeIfExpired(PurgeAll(a, ids[..|ids| - 1]), ids[|ids| - 1])
  }

  function Cutoff(a: Account, days: int): int {
    a.clock - (if days < 1 then 30 else days) * DAY
  }

  function Kept(a: Account, days: int): map<nat, Event> {
    map s | s in a.events && a.events[s].occurredAt >= Cutoff(a, days) :: a.events[s]
  }

  /** Deletes events older than the retention period and recomputes min_available_seq in the same transaction. */
  ghost function Retain(a: Account, days: int): Account {
    var kept := Kept(a, days);
    a.(events := kept, minAvailableSeq := if kept.Keys == {} then a.nextSeq + 1 else Least(kept.Keys))
  }

  function CleanReceipts(a: Account): Account {
    a.(receipts := map op | op in a.receipts && a.receipts[op].expiresAt > a.clock :: a.receipts[op])
  }

  function CleanSnapshots(a: Account): Account {
    a.(snapshots := map t | t in a.snapshots && a.snapshots[t].expiresAt > a.clock :: a.snapshots[t])
  }
}
