/** The rows, requests and answers of one account, as the tables and wire types describe them. */
module Domain {

  datatype Option<+T> = None | Some(value: T)

  datatype Result<+T> = Ok(value: T) | Err(error: Error)

  type Byte = n: nat | n < 256

  /** A Go string is a sequence of bytes. */
  type Text = s: string | forall i :: 0 <= i < |s| ==> s[i] < 256 as char witness ""

  /** A canonical lower-case UUID, read as a 128-bit number: PostgreSQL orders UUIDs the same way. */
  const UUID_SPACE: nat := 0x1_0000_0000_0000_0000_0000_0000_0000_0000
  type Uuid = n: nat | n < UUID_SPACE
  const NIL_UUID: Uuid := 0

  /** Instants in microseconds, the resolution of TIMESTAMPTZ. */
  type Time = nat
  const SECOND: nat := 1_000_000
  const MINUTE: nat := 60 * SECOND
  const DAY: nat := 86_400 * SECOND
  const TRASH_PERIOD: nat := 7 * DAY      // 168 hours
  const RECEIPT_PERIOD: nat := 30 * DAY
  const SNAPSHOT_PERIOD: nat := 15 * MINUTE
  const PAGE: nat := 100

  /** SHA-256 is taken to be injective on the inputs that occur, so a digest is its own input. */
  type Digest = seq<Byte>

  datatype Envelope = Envelope(
    id: Uuid, vaultId: Uuid, sourceDeviceId: Uuid, formatVersion: int, keyEpoch: int,
    contentType: Text, nonce: seq<Byte>, ciphertext: seq<Byte>, deliveryIntent: Text)

  datatype Status = Active | Trash

  datatype Clip = Clip(
    env: Envelope, status: Status, version: nat, createdSeq: nat, lastSeq: nat,
    createdAt: Time, deletedAt: Option<Time>, expiresAt: Option<Time>)

  /** What is left of a purged clip. */
  datatype Tombstone = Tombstone(version: nat, seqNo: nat, purgedAt: Time)

  /** A row of clip_ids: it outlives the clip. */
  datatype Registration = Registration(
    hash: Digest, createdSeq: nat, createdAt: Time, tomb: Option<Tombstone>)

  datatype EventKind = Created | Trashed | Restored | Purged

  datatype Event = Event(seqNo: nat, clipId: Uuid, kind: EventKind, version: nat, occurredAt: Time)

  datatype ReceiptStatus = IsActive | IsTrash | IsPurged

  datatype Receipt = Receipt(
    id: Uuid, status: ReceiptStatus, version: nat, seqNo: nat,
    createdAt: Option<Time>, deletedAt: Option<Time>, expiresAt: Option<Time>)

  datatype StoredReceipt = StoredReceipt(hash: Digest, receipt: Receipt, expiresAt: Time)

  datatype SnapshotSession = SnapshotSession(device: Uuid, baseSeq: nat, epoch: Uuid, expiresAt: Time)

  datatype Vault = Vault(id: Uuid, keyEpoch: int)

  datatype Config = Config(maxItems: nat, maxCiphertextBytes: nat)

  datatype CreateResult = CreateResult(receipt: Receipt, created: bool)

  datatype ChangePage = ChangePage(epoch: Uuid, events: seq<Event>, nextSeq: nat, high: nat, hasMore: bool)

  datatype Snapshot = Snapshot(token: nat, baseSeq: nat, epoch: Uuid, expiresAt: Time)

  datatype SnapshotPage = SnapshotPage(baseSeq: nat, epoch: Uuid, items: seq<Clip>, next: Option<Uuid>)

  /** What a listing asks for: one status, perhaps one source device and a window of creation times. */
  datatype Filter = Filter(status: Status, device: Option<Uuid>, since: Option<Time>, until: Option<Time>)

  /** Where a listing goes on: behind this created_seq and id. */
  datatype PageToken = PageToken(createdSeq: nat, id: Uuid)

  datatype ClipPage = ClipPage(items: seq<Clip>, next: Option<PageToken>)

  /** The error codes of apperr.go that these operations use; Unavailable is the 503 of an aborted transaction. */
  datatype Error =
    | InvalidRequest
    | DeviceRevoked
    | Unauthenticated
    | TokenExpired
    | IdempotencyConflict
    | QuotaExceeded
    | NotFound
    | ClipPurged(version: nat, seqNo: nat)
    | VersionConflict(status: Status, current: nat, seqNo: nat)
    | TrashExpired(version: nat, seqNo: nat, expiresAt: Time)
    | SyncResetRequired(epoch: Uuid)
    | CursorExpired(epoch: Uuid, minAvailableSeq: nat)
    | SnapshotExpired
    | Unavailable

  function Min(x: nat, y: nat): nat {
    if x < y then x else y
  }

  datatype MutationKind = TrashOp | RestoreOp | PurgeOp
}
