/** What requests are answered: every receipt, row and refusal tells what the log says, after any run. */
module Answers {
  import opened Domain
  import opened Accounts
  import opened EventLog
  import opened Invariant
  import opened Evolution
  import opened Expiry
  import opened Runs
  import opened Canon
  import opened History

  const HOUR: nat := 3_600_000_000   // in microseconds

  // ----- what it means to tell the truth -----

  /** The receipt tells of the event that has its number: same clip and version, the new status, the event's time. */
  predicate Tells(log: seq<Event>, r: Receipt) {
    && 1 <= r.seqNo <= |log|
    && var e := log[r.seqNo - 1];
       && e.clipId == r.id && e.version == r.version
       && match e.kind {
            case Created =>
              r.status == IsActive && r.version == 1
              && r.createdAt == Some(e.occurredAt) && r.deletedAt == None && r.expiresAt == None
            case Trashed =>
              r.status == IsTrash && r.createdAt == None
              && r.deletedAt == Some(e.occurredAt) && r.expiresAt == Some(e.occurredAt + 168 * HOUR)
            case Restored => r.status == IsActive && r.createdAt == None && r.deletedAt == None && r.expiresAt == None
            case Purged => r.status == IsPurged && r.createdAt == None && r.deletedAt == None && r.expiresAt == None
          }
  }

  /** Event `seqNo` is the newest of this clip. */
  predicate IsNewest(log: seq<Event>, id: Uuid, seqNo: nat) {
    && 1 <= seqNo <= |log| && log[seqNo - 1].clipId == id
    && forall i :: seqNo <= i < |log| ==> log[i].clipId != id
  }

  /** A row holds the envelope that was accepted, within the table's constraints, and what its events made of it. */
  predicate RowTrue(a: Account, id: Uuid)
    requires id in a.clips
  {
    var c := a.clips[id];
    && id in a.clipIds && a.clipIds[id].hash == CreateRequestHash(c.env)
    && c.env.formatVersion == 1 && c.env.keyEpoch == 1 && c.env.contentType == "text/plain"
    && |c.env.nonce| == 12 && 1 + 16 <= |c.env.ciphertext| <= 65536 + 16
    && c.env.deliveryIntent in {"live", "history_only"}
    && 1 <= c.lastSeq <= |a.log|
    && var e := a.log[c.lastSeq - 1];
       && e.clipId == id && e.version == c.version
       && match e.kind {
            case Trashed =>
              c.status == Trash && c.deletedAt == Some(e.occurredAt) && c.expiresAt == Some(e.occurredAt + 168 * HOUR)
            case Purged => false
            case _ => c.status == Active && c.deletedAt == None && c.expiresAt == None
          }
  }

  /** A registration tells of the creation, and its tombstone of the purge. */
  predicate RegistrationTrue(a: Account, id: Uuid)
    requires id in a.clipIds
  {
    var reg := a.clipIds[id];
    && 1 <= reg.createdSeq <= |a.log|
    && a.log[reg.createdSeq - 1] == Event(reg.createdSeq, id, Created, 1, reg.createdAt)
    && (reg.tomb.Some? ==>
          && 1 <= reg.tomb.value.seqNo <= |a.log|
          && a.log[reg.tomb.value.seqNo - 1]
             == Event(reg.tomb.value.seqNo, id, Purged, reg.tomb.value.version, reg.tomb.value.purgedAt))
  }

  function Asked(status: ReceiptStatus): MutationKind {
    match status
    case IsActive => RestoreOp
    case IsTrash => TrashOp
    case IsPurged => PurgeOp
  }

  /** A stored receipt is the one of the request it is stored for, and lives for thirty days from its event on. */
  predicate StoredTrue(a: Account, op: Uuid)
    requires op in a.receipts
  {
    var s := a.receipts[op];
    && Tells(a.log, s.receipt) && a.log[s.receipt.seqNo - 1].kind != Created
    && s.hash == OperationRequestHash(Asked(s.receipt.status), s.receipt.id, s.receipt.version - 1)
    && s.expiresAt == a.log[s.receipt.seqNo - 1].occurredAt + 30 * 24 * HOUR
  }

  ghost predicate RowsTrue(a: Account) {
    && (forall id :: id in a.clips ==> RowTrue(a, id))
    && (forall id :: id in a.clipIds ==> RegistrationTrue(a, id))
  }

  ghost predicate ReceiptsTrue(a: Account) {
    forall op :: op in a.receipts ==> StoredTrue(a, op)
  }

  ghost predicate Truthful(a: Account) {
    RowsTrue(a) && ReceiptsTrue(a)
  }

  // ----- every step keeps it -----

  lemma TellsOnward(log: seq<Event>, longer: seq<Event>, r: Receipt)
    requires Tells(log, r) && log <= longer
    ensures Tells(longer, r) && 1 <= r.seqNo <= |log|
  {
  }

  lemma ReceiptsStayTrue(a: Account, b: Account)
    requires ReceiptsTrue(a) && a.log <= b.log
    requires forall op :: op in b.receipts ==> op in a.receipts && b.receipts[op] == a.receipts[op]
    ensures ReceiptsTrue(b)
  {
    hide OperationRequestHash, Tells;
    forall op | op in b.receipts ensures StoredTrue(b, op) {
      assert StoredTrue(a, op);
      TellsOnward(a.log, b.log, a.receipts[op].receipt);
    }
  }

  lemma RowStaysTrue(a: Account, b: Account, id: Uuid)
    requires id in a.clips && RowTrue(a, id) && a.log <= b.log
    requires id in b.clips && b.clips[id] == a.clips[id] && id in b.clipIds && b.clipIds[id] == a.clipIds[id]
    ensures RowTrue(b, id)
  {
    hide CreateRequestHash;
  }

  lemma RegistrationStaysTrue(a: Account, b: Account, id: Uuid)
    requires id in a.clipIds && RegistrationTrue(a, id) && a.log <= b.log
    requires id in b.clipIds && b.clipIds[id] == a.clipIds[id]
    ensures RegistrationTrue(b, id)
  {
  }

  lemma RowsStayTrue(a: Account, b: Account, id: Uuid)
    requires RowsTrue(a) && SameElsewhere(a, b, id) && a.log <= b.log && a.clips.Keys <= a.clipIds.Keys
    requires (id in b.clips ==> RowTrue(b, id)) && (id in b.clipIds ==> RegistrationTrue(b, id))
    ensures RowsTrue(b)
  {
    hide RowTrue, RegistrationTrue;
    forall x | x in b.clips ensures RowTrue(b, x) {
      if x != id { RowStaysTrue(a, b, x); }
    }
    forall x | x in b.clipIds ensures RegistrationTrue(b, x) {
      if x != id { RegistrationStaysTrue(a, b, x); }
    }
  }

  lemma InsertedIsTrue(a: Account, env: Envelope)
    requires a.nextSeq == |a.log| && RowChecks(env)
    ensures var b := Insert(a, env, CreateRequestHash(env)); RowTrue(b, env.id) && RegistrationTrue(b, env.id)
  {
    hide CreateRequestHash;
  }

  lemma InsertIsTrue(a: Account, env: Envelope)
    requires Inv(a) && Truthful(a) && env.id !in a.clipIds && RowChecks(env)
    ensures Truthful(Insert(a, env, CreateRequestHash(env)))
  {
    hide CreateRequestHash, LogIsState, QuotaOk, SnapshotsOk, RowTrue, RegistrationTrue, StoredTrue, RowChecks;
    var b := Insert(a, env, CreateRequestHash(env));
    ClipsAreRegistered(a);
    InsertedIsTrue(a, env);
    RowsStayTrue(a, b, env.id);
    ReceiptsStayTrue(a, b);
  }

  lemma BumpedIsTrue(a: Account, id: Uuid, status: Status)
    requires a.nextSeq == |a.log| && id in a.clips && RowTrue(a, id) && RegistrationTrue(a, id)
    ensures var b := Bump(a, id, status); RowTrue(b, id) && RegistrationTrue(b, id)
  {
    hide CreateRequestHash;
  }

  lemma BumpIsTrue(a: Account, id: Uuid, status: Status)
    requires Inv(a) && Truthful(a) && id in a.clips
    ensures Truthful(Bump(a, id, status))
  {
    hide LogIsState, QuotaOk, SnapshotsOk, RowTrue, RegistrationTrue, StoredTrue, RetentionOk;
    ClipsAreRegistered(a);
    BumpedIsTrue(a, id, status);
    RowsStayTrue(a, Bump(a, id, status), id);
    ReceiptsStayTrue(a, Bump(a, id, status));
  }

  lemma BuriedIsTrue(a: Account, id: Uuid)
    requires a.nextSeq == |a.log| && id in a.clips && id in a.clipIds && RegistrationTrue(a, id)
    ensures RegistrationTrue(Purge(a, id), id)
  {
  }

  lemma PurgeIsTrue(a: Account, id: Uuid)
    requires Inv(a) && Truthful(a) && id in a.clips && id in a.clipIds
    ensures Truthful(Purge(a, id))
  {
    hide LogIsState, QuotaOk, SnapshotsOk, RowTrue, RegistrationTrue, StoredTrue, RetentionOk;
    ClipsAreRegistered(a);
    BuriedIsTrue(a, id);
    RowsStayTrue(a, Purge(a, id), id);
    ReceiptsStayTrue(a, Purge(a, id));
  }

  /** What an applied mutation answers, stored or not. */
  lemma AppliedTells(a: Account, id: Uuid, kind: MutationKind, expected: int, skewed: bool)
    requires Inv(a) && ApplyMutation(a, id, kind, expected, skewed).1.Ok?
    ensures var (b, r) := ApplyMutation(a, id, kind, expected, skewed);
      && Tells(b.log, r.value) && r.value.seqNo == |b.log| && b.log[|b.log| - 1].occurredAt == a.clock
      && r.value.id == id && r.value.version == expected + 1 && Asked(r.value.status) == kind
      && b.log[|b.log| - 1].kind == EventKindOf(kind)
  {
    hide LogIsState, QuotaOk, SnapshotsOk, RetentionOk;
    assert RowOk(a, id);
  }

  lemma AppliedIsTrue(a: Account, id: Uuid, kind: MutationKind, expected: int, skewed: bool)
    requires Inv(a) && Truthful(a)
    ensures Truthful(ApplyMutation(a, id, kind, expected, skewed).0)
  {
    hide Inv, Truthful, Bump, Purge;
    if ApplyMutation(a, id, kind, expected, skewed).1.Ok? {
      match kind
      case TrashOp => BumpIsTrue(a, id, Trash);
      case RestoreOp => BumpIsTrue(a, id, Active);
      case PurgeOp => PurgeIsTrue(a, id);
    }
  }

  lemma StoringIsTrue(a: Account, op: Uuid, s: StoredReceipt)
    requires Truthful(a) && StoredTrue(a.(receipts := map[op := s]), op)
    ensures Truthful(a.(receipts := a.receipts[op := s]))
  {
    hide CreateRequestHash, OperationRequestHash, Tells;
    var b := a.(receipts := a.receipts[op := s]);
    forall x | x in b.receipts ensures StoredTrue(b, x) {
      assert x != op ==> StoredTrue(a, x);
    }
    RowsStandStill(a, b);
  }

  lemma RowsStandStill(a: Account, b: Account)
    requires RowsTrue(a) && b.clips == a.clips && b.clipIds == a.clipIds && b.log == a.log
    ensures RowsTrue(b)
  {
    hide CreateRequestHash;
    forall id | id in b.clips ensures RowTrue(b, id) {
      assert RowTrue(a, id);
    }
    forall id | id in b.clipIds ensures RegistrationTrue(b, id) {
      assert RegistrationTrue(a, id);
    }
  }

  lemma MutateIsTrue(a: Account, id: Uuid, op: Uuid, kind: MutationKind, expected: int, skewed: bool)
    requires Inv(a) && Truthful(a)
    ensures Truthful(MutateStep(a, id, op, kind, expected, skewed).0)
  {
    hide Inv, Truthful, ApplyMutation, OperationRequestHash, Tells, MutateClip;
    var hash := OperationRequestHash(kind, id, expected);
    MutateShape(a, id, op, kind, expected, hash, skewed);
    var (b, r) := ApplyMutation(a, id, kind, expected, skewed);
    if MutateClip(a, id, op, kind, expected, hash, skewed).0 != a {
      AppliedIsTrue(a, id, kind, expected, skewed);
      AppliedTells(a, id, kind, expected, skewed);
      StoringIsTrue(b, op, StoredReceipt(hash, r.value, a.clock + RECEIPT_PERIOD));
    }
  }

  lemma {:induction false} PurgingIsTrue(a: Account, ids: seq<Uuid>)
    requires Inv(a) && Truthful(a)
    ensures Truthful(PurgeAll(a, ids))
  {
    hide Inv, Truthful, Purge, Evolves;
    if |ids| > 0 {
      var b, id := PurgeAll(a, ids[..|ids| - 1]), ids[|ids| - 1];
      PurgingIsTrue(a, ids[..|ids| - 1]);
      PurgeAllFollows(a, ids[..|ids| - 1]);
      if PurgeIfExpired(b, id) != b { PurgeIsTrue(b, id); }
    }
  }

  lemma SameRowsStayTrue(a: Account, b: Account)
    requires Truthful(a) && b.clips == a.clips && b.clipIds == a.clipIds && b.log == a.log
    requires forall op :: op in b.receipts ==> op in a.receipts && b.receipts[op] == a.receipts[op]
    ensures Truthful(b)
  {
    ReceiptsStayTrue(a, b);
    RowsStandStill(a, b);
  }

  lemma QuietKeepsReceipts(a: Account, action: Action)
    requires IsQuiet(action) || action.RetainEvents?
    ensures var b := Step(a, action);
      forall op :: op in b.receipts ==> op in a.receipts && b.receipts[op] == a.receipts[op]
  {
    hide MutateStep, CreateStep, PurgeBatch;
  }

  lemma CreateIsTrue(a: Account, device: Uuid, env: Envelope)
    requires Inv(a) && Truthful(a)
    ensures Truthful(CreateStep(a, device, env).0)
  {
    hide Inv, Truthful, Insert, CreateRequestHash;
    if CreateStep(a, device, env).0 != a {
      InsertIsTrue(a, env);
    }
  }

  lemma RetainKeepsRows(a: Account, days: int)
    ensures var b := Retain(a, days);
      b.clips == a.clips && b.clipIds == a.clipIds && b.log == a.log && b.receipts == a.receipts
  {
  }

  lemma StepIsTrue(a: Account, action: Action)
    requires Inv(a) && Truthful(a)
    ensures Truthful(Step(a, action))
  {
    hide Inv, Truthful, CreateStep, MutateStep, PurgeAll, Retain, Revoke, BeginSnapshot;
    match action
    case Create(device, env) => CreateIsTrue(a, device, env);
    case Mutate(id, op, kind, expected, skewed) => MutateIsTrue(a, id, op, kind, expected, skewed);
    case PurgeExpired => PurgingIsTrue(a, BatchIds(a));
    case RetainEvents(days) =>
      RetainKeepsRows(a, days);
      SameRowsStayTrue(a, Step(a, action));
    case _ =>
      QuietStepTouchesNoRow(a, action);
      QuietKeepsReceipts(a, action);
      SameRowsStayTrue(a, Step(a, action));
  }

  lemma {:induction false} RunIsTrue(a: Account, actions: seq<Action>)
    requires Inv(a) && Truthful(a)
    ensures Truthful(Run(a, actions))
  {
    hide Inv, Truthful, Step, Evolves;
    if |actions| > 0 {
      var front := actions[..|actions| - 1];
      RunIsTrue(a, front);
      RunFollows(a, front);
      StepIsTrue(Run(a, front), actions[|actions| - 1]);
    }
  }

  /** In every reachable state the log, the rows, the registrations and the stored receipts tell the same story. */
  lemma ReachableIsTrue(a: Account)
    requires Reachable(a)
    ensures Inv(a) && Truthful(a)
  {
    hide Inv, Run;
    ReachableIsOk(a);
    var cfg, clock, epoch, actions :| a == Run(Fresh(cfg, clock, epoch), actions);
    FreshIsOk(cfg, clock, epoch);
    RunIsTrue(Fresh(cfg, clock, epoch), actions);
  }

  // ----- mutations -----

  /** A life names its newest event, which is of the kind that led to its phase. */
  lemma NewestTells(a: Account, id: Uuid)
    requires Inv(a) && RowsTrue(a) && id in a.clipIds
    ensures id in a.clips ==>
      var c := a.clips[id];
      && IsNewest(a.log, id, c.lastSeq) && a.log[c.lastSeq - 1].version == c.version
      && a.log[c.lastSeq - 1].kind != Purged
      && (c.status == Trash <==> a.log[c.lastSeq - 1].kind == Trashed)
      && (c.status == Trash ==> c.expiresAt == Some(a.log[c.lastSeq - 1].occurredAt + 168 * HOUR))
    ensures id !in a.clips ==>
      && a.clipIds[id].tomb.Some?
      && var t := a.clipIds[id].tomb.value;
         && IsNewest(a.log, id, t.seqNo) && a.log[t.seqNo - 1].version == t.version && a.log[t.seqNo - 1].kind == Purged
  {
    hide LogOk, LogIsState, RetentionOk, QuotaOk, SnapshotsOk, CreateRequestHash, IsNewest;
    LifeNamesNewest(a, id);
    assert RegistrationTrue(a, id);
    assert id in a.clips ==> RowTrue(a, id);
  }

  lemma LifeNamesNewest(a: Account, id: Uuid)
    requires Inv(a) && id in a.clipIds
    ensures IsNewest(a.log, id, LifeOf(a, id).lastSeq)
    ensures a.log[LifeOf(a, id).lastSeq - 1].version == LifeOf(a, id).version
  {
    hide RetentionOk, RowsOk, QuotaOk, SnapshotsOk, Replay, LifeOf;
    InvSummarises(a, id);
  }

  lemma UnknownHasNoEvent(a: Account, id: Uuid)
    requires Inv(a)
    ensures id !in a.clipIds <==> forall i :: 0 <= i < |a.log| ==> a.log[i].clipId != id
  {
    hide RetentionOk, QuotaOk, SnapshotsOk, Replay;
    if id in a.clipIds {
      InvSummarises(a, id);
    } else if i :| 0 <= i < |a.log| && a.log[i].clipId == id {
      LifeSummarises(a.log, id);
      EventIsCounted(a.log, i);
      assert false;
    }
  }

  lemma {:induction false} EventIsCounted(log: seq<Event>, i: nat)
    requires i < |log|
    ensures EventsOf(log, log[i].clipId) > 0
    decreases |log|
  {
    if i < |log| - 1 {
      EventIsCounted(log[..|log| - 1], i);
    }
  }

  /** The clip's newest event is number `seqNo` and lets a mutation of this kind from `expected` through. */
  predicate Due(a: Account, id: Uuid, kind: MutationKind, expected: int, seqNo: nat) {
    && IsNewest(a.log, id, seqNo)
    && var e := a.log[seqNo - 1];
       && e.version == expected
       && (if kind == TrashOp then e.kind == Created || e.kind == Restored else e.kind == Trashed)
       && (kind == RestoreOp ==> a.clock < e.occurredAt + 168 * HOUR)
  }

  /** A refusal names what stands in the way, as the log has it. */
  ghost predicate RefusalTells(a: Account, id: Uuid, kind: MutationKind, expected: int, skewed: bool, error: Error) {
    match error
    case NotFound => forall i :: 0 <= i < |a.log| ==> a.log[i].clipId != id
    case ClipPurged(version, seqNo) =>
      IsNewest(a.log, id, seqNo) && a.log[seqNo - 1].version == version && a.log[seqNo - 1].kind == Purged
    case VersionConflict(status, current, seqNo) =>
      && IsNewest(a.log, id, seqNo) && a.log[seqNo - 1].version == current && a.log[seqNo - 1].kind != Purged
      && (status == Trash <==> a.log[seqNo - 1].kind == Trashed)
      && (current != expected || (kind == TrashOp <==> status == Trash))
    case TrashExpired(version, seqNo, expiresAt) =>
      && kind == RestoreOp && version == expected
      && IsNewest(a.log, id, seqNo) && a.log[seqNo - 1].version == version && a.log[seqNo - 1].kind == Trashed
      && expiresAt == a.log[seqNo - 1].occurredAt + 168 * HOUR <= a.clock
    case Unavailable => kind == TrashOp && skewed && exists seqNo :: Due(a, id, kind, expected, seqNo)
    case _ => false
  }

  lemma ApplyAnswers(a: Account, id: Uuid, kind: MutationKind, expected: int, skewed: bool)
    requires Inv(a) && RowsTrue(a)
    ensures var r := ApplyMutation(a, id, kind, expected, skewed).1;
      && (r.Ok? <==> !(kind == TrashOp && skewed) && exists seqNo :: Due(a, id, kind, expected, seqNo))
      && (r.Err? ==> RefusalTells(a, id, kind, expected, skewed, r.error))
  {
    hide LogOk, RetentionOk, LogIsState, QuotaOk, SnapshotsOk, RowsTrue, Bump, Purge, IsNewest, BumpReceipt;
    UnknownHasNoEvent(a, id);
    if id in a.clipIds {
      NewestTells(a, id);
      assert id in a.clips ==> RowOk(a, id);
      OneIsNewest(a.log, id);
      if id in a.clips {
        assert Due(a, id, kind, expected, a.clips[id].lastSeq) || !Due(a, id, kind, expected, a.clips[id].lastSeq);
      }
    } else {
      NoneIsNewest(a.log, id);
    }
  }

  lemma OneIsNewest(log: seq<Event>, id: Uuid)
    ensures forall m, n :: IsNewest(log, id, m) && IsNewest(log, id, n) ==> m == n
  {
  }

  lemma NoneIsNewest(log: seq<Event>, id: Uuid)
    requires forall i :: 0 <= i < |log| ==> log[i].clipId != id
    ensures forall n :: !IsNewest(log, id, n)
  {
  }

  /**
   * Whatever a mutation is answered can be read off the log. Success, new or replayed, is a receipt that tells of
   * one event of this clip, which brought it from `expected` to the next version as asked. A new request succeeds
   * exactly when the clip's newest event lets it; every refusal quotes that event.
   */
  lemma MutationAnswers(a: Account, id: Uuid, op: Uuid, kind: MutationKind, expected: int, skewed: bool)
    requires Reachable(a)
    ensures var (b, r) := MutateStep(a, id, op, kind, expected, skewed);
      && (r.Ok? ==> Tells(b.log, r.value))
      && (r.Ok? && (op !in a.receipts
                    || (Sized(OperationFields(kind, id, expected)) && Sized(StoredFields(a.receipts[op].receipt)))) ==>
            r.value.id == id && r.value.version == expected + 1 && Asked(r.value.status) == kind)
      && (ReceiptLives(a, op) ==>
            && b == a
            && r == if a.receipts[op].hash == OperationRequestHash(kind, id, expected)
                    then Ok(a.receipts[op].receipt) else Err(IdempotencyConflict))
      && (!ReceiptLives(a, op) && r.Ok? ==> r.value.seqNo == |b.log| && b.log[..|a.log|] == a.log)
      && (!ReceiptLives(a, op) && op !in a.receipts ==>
            && (r.Ok? <==> !(kind == TrashOp && skewed) && exists seqNo :: Due(a, id, kind, expected, seqNo))
            && (r.Err? ==> RefusalTells(a, id, kind, expected, skewed, r.error)))
      && (!ReceiptLives(a, op) && op in a.receipts ==>
            && r.Err?
            && if !(kind == TrashOp && skewed) && (exists seqNo :: Due(a, id, kind, expected, seqNo))
               then r.error == Unavailable
               else RefusalTells(a, id, kind, expected, skewed, r.error))
  {
    hide Inv, Reachable, ApplyMutation, OperationRequestHash, Tells, RefusalTells, Due, RowsTrue, RowTrue;
    hide RegistrationTrue;
    ReachableIsTrue(a);
    var hash := OperationRequestHash(kind, id, expected);
    ApplyAnswers(a, id, kind, expected, skewed);
    if ReceiptLives(a, op) {
      assert StoredTrue(a, op);
      if a.receipts[op].hash == hash && Sized(OperationFields(kind, id, expected))
        && Sized(StoredFields(a.receipts[op].receipt))
      {
        var s := a.receipts[op].receipt;
        OperationHashInjective(kind, id, expected, Asked(s.status), s.id, s.version - 1);
      }
    } else if ApplyMutation(a, id, kind, expected, skewed).1.Ok? {
      AppliedTells(a, id, kind, expected, skewed);
      ApplyGrowsLog(a, id, kind, expected, skewed);
      ApplyKeepsReceipts(a, id, kind, expected, skewed);
    }
  }

  function StoredFields(r: Receipt): seq<seq<Byte>> {
    OperationFields(Asked(r.status), r.id, r.version - 1)
  }

  lemma ApplyGrowsLog(a: Account, id: Uuid, kind: MutationKind, expected: int, skewed: bool)
    ensures var b := ApplyMutation(a, id, kind, expected, skewed).0; |a.log| <= |b.log| && b.log[..|a.log|] == a.log
  {
  }

  // ----- creates -----

  /** Source device, vault and device are as they must be before the registry is looked at. */
  predicate Entitled(a: Account, device: Uuid, env: Envelope) {
    && env.sourceDeviceId == device
    && a.vault.Some? && a.vault.value.id == env.vaultId && a.vault.value.keyEpoch == env.keyEpoch
    && device in a.devices && a.devices[device] == None
  }

  /** Why a create is refused: the conditions exclude each other, so each code means exactly its own. */
  ghost predicate CreateRefusalTells(a: Account, device: Uuid, env: Envelope, error: Error) {
    match error
    case InvalidRequest =>
      || env.sourceDeviceId != device || a.vault.None?
      || a.vault.value.id != env.vaultId || a.vault.value.keyEpoch != env.keyEpoch
    case DeviceRevoked =>
      && env.sourceDeviceId == device
      && a.vault.Some? && a.vault.value.id == env.vaultId && a.vault.value.keyEpoch == env.keyEpoch
      && (device !in a.devices || a.devices[device].Some?)
    case IdempotencyConflict =>
      Entitled(a, device, env) && env.id in a.clipIds && a.clipIds[env.id].hash != CreateRequestHash(env)
    case QuotaExceeded =>
      && Entitled(a, device, env) && env.id !in a.clipIds
      && (a.cfg.maxItems < |a.clips| + 1 || a.cfg.maxCiphertextBytes < SumBytes(a.clips) + |env.ciphertext|)
    case Unavailable =>
      && Entitled(a, device, env) && env.id !in a.clipIds
      && |a.clips| + 1 <= a.cfg.maxItems && SumBytes(a.clips) + |env.ciphertext| <= a.cfg.maxCiphertextBytes
      && !(env.formatVersion == 1 && env.keyEpoch == 1 && env.contentType == "text/plain"
           && |env.nonce| == 12 && 1 + 16 <= |env.ciphertext| <= 65536 + 16
           && env.deliveryIntent in {"live", "history_only"})
    case _ => false
  }

  /**
   * Whatever a create is answered: success means that the device is enrolled and not revoked, sends in its own
   * name and to the account's vault, and the receipt tells of the one creation of this clip; a refusal means
   * what its code says and changes nothing.
   */
  lemma CreateAnswers(a: Account, device: Uuid, env: Envelope)
    requires Reachable(a)
    ensures var (b, r) := CreateStep(a, device, env);
      && (r.Ok? ==>
            && Entitled(a, device, env)
            && var receipt := r.value.receipt;
               && Tells(b.log, receipt) && receipt.id == env.id && b.log[receipt.seqNo - 1].kind == Created
               && (r.value.created <==> env.id !in a.clipIds)
               && (r.value.created ==> receipt.seqNo == |b.log| == |a.log| + 1 && receipt.createdAt == Some(a.clock))
               && (!r.value.created ==> b == a && a.clipIds[env.id].hash == CreateRequestHash(env)))
      && (r.Err? ==> b == a && CreateRefusalTells(a, device, env, r.error))
  {
    hide Inv, Reachable, CreateRequestHash, RowTrue, StoredTrue, RegistrationTrue, Tells, CreateRefusalTells, Entitled;
    ReachableIsTrue(a);
    var (b, r) := CreateStep(a, device, env);
    CountersCount(a);
    if r.Err? {
      CreateRefuses(a, device, env);
    } else {
      AdmittedIsEntitled(a, device, env);
      if env.id in a.clipIds {
        RegistrationTells(a, env.id);
      } else {
        InsertTells(a, env, CreateRequestHash(env));
      }
    }
  }

  lemma CreateRefuses(a: Account, device: Uuid, env: Envelope)
    requires a.itemCount == |a.clips| && a.ciphertextBytes == SumBytes(a.clips)
    ensures var (b, r) := CreateStep(a, device, env); r.Err? ==> b == a && CreateRefusalTells(a, device, env, r.error)
  {
    hide Insert, CreateRequestHash, SumBytes;
  }

  lemma AdmittedIsEntitled(a: Account, device: Uuid, env: Envelope)
    requires CreateStep(a, device, env).1.Ok?
    ensures Entitled(a, device, env)
  {
    hide Insert, CreateRequestHash;
  }

  lemma RegistrationTells(a: Account, id: Uuid)
    requires id in a.clipIds && RegistrationTrue(a, id)
    ensures var reg := a.clipIds[id];
      && Tells(a.log, CreateReceipt(id, reg.createdSeq, reg.createdAt)) && 1 <= reg.createdSeq <= |a.log|
      && a.log[reg.createdSeq - 1].kind == Created
  {
  }

  lemma InsertTells(a: Account, env: Envelope, hash: Digest)
    requires Inv(a)
    ensures var b := Insert(a, env, hash);
      && |b.log| == |a.log| + 1 == a.nextSeq + 1 && b.log[a.nextSeq].kind == Created
      && Tells(b.log, CreateReceipt(env.id, a.nextSeq + 1, a.clock))
  {
    hide RowsOk, LogIsState, QuotaOk, SnapshotsOk, RetentionOk;
  }

  /** From its revocation on a device creates nothing, in any run. */
  lemma RevokedDeviceCreatesNothing(a: Account, device: Uuid, actions: seq<Action>, env: Envelope)
    requires Reachable(a) && device in a.devices
    ensures var b := Run(Step(a, RevokeDevice(device)), actions);
      var (c, r) := CreateStep(b, device, env);
      && c == b && r.Err?
      && (env.sourceDeviceId == device && b.vault == Some(Vault(env.vaultId, env.keyEpoch)) ==>
            r.error == DeviceRevoked)
  {
    hide Inv;
    ReachableIsOk(a);
    StepFollows(a, RevokeDevice(device));
    RunFollows(Step(a, RevokeDevice(device)), actions);
  }

  // ----- reads -----

  /** What a read answers: the row as it is, or the reason why there is none, as the log has it. */
  lemma ReadAnswers(a: Account, id: Uuid)
    requires Reachable(a)
    ensures match GetClip(a, id)
      case Ok(c) =>
        && id in a.clips && c == a.clips[id] && c.env.id == id
        && IsNewest(a.log, id, c.lastSeq) && a.log[c.lastSeq - 1].version == c.version
        && (c.status == Trash <==> a.log[c.lastSeq - 1].kind == Trashed)
        && (c.status == Trash ==> a.clock < a.log[c.lastSeq - 1].occurredAt + 168 * HOUR)
      case Err(TrashExpired(version, seqNo, expiresAt)) =>
        && IsNewest(a.log, id, seqNo) && a.log[seqNo - 1].version == version && a.log[seqNo - 1].kind == Trashed
        && expiresAt == a.log[seqNo - 1].occurredAt + 168 * HOUR <= a.clock
      case Err(ClipPurged(version, seqNo)) =>
        IsNewest(a.log, id, seqNo) && a.log[seqNo - 1].version == version && a.log[seqNo - 1].kind == Purged
      case Err(NotFound) => forall i :: 0 <= i < |a.log| ==> a.log[i].clipId != id
      case Err(_) => false
  {
    hide LogOk, LogIsState, RetentionOk, QuotaOk, SnapshotsOk, IsNewest, RowTrue, RegistrationTrue;
    ReachableIsTrue(a);
    UnknownHasNoEvent(a, id);
    if id in a.clipIds {
      NewestTells(a, id);
    }
    assert id in a.clips ==> RowOk(a, id);
  }

  /** A row that is still there holds the envelope it was created with. */
  lemma EnvelopeStays(a: Account, b: Account, id: Uuid)
    requires Inv(a) && Follows(a, b) && id in a.clips && id in b.clips
    ensures b.clips[id].env == a.clips[id].env
  {
    assert IdEvolves(a, b, id);
  }

  /**
   * From an accepted create to any later read, whatever happens in between: the clip is answered exactly while
   * it is neither purged nor trash of 168 hours or more, and then with the very envelope that was sent and the
   * numbers of the receipt. Otherwise the answer is the expiry of the row or the tombstone.
   */
  lemma CreatedStaysReadable(a: Account, device: Uuid, env: Envelope, actions: seq<Action>)
    requires Reachable(a) && env.id !in a.clipIds && CreateStep(a, device, env).1.Ok?
    ensures var (a1, r) := CreateStep(a, device, env);
      var b, id := Run(a1, actions), env.id;
      && id in b.clipIds
      && (GetClip(b, id).Ok? <==>
            && id in b.clips
            && (b.clips[id].status == Trash ==> b.clips[id].expiresAt.Some? && b.clock < b.clips[id].expiresAt.value))
      && match GetClip(b, id)
         case Ok(c) =>
           && c.env == env && c == b.clips[id]
           && c.createdSeq == r.value.receipt.seqNo && Some(c.createdAt) == r.value.receipt.createdAt
         case Err(TrashExpired(version, seqNo, expiresAt)) =>
           && id in b.clips
           && version == b.clips[id].version && seqNo == b.clips[id].lastSeq && Some(expiresAt) == b.clips[id].expiresAt
         case Err(ClipPurged(version, seqNo)) =>
           && b.clipIds[id].tomb.Some?
           && version == b.clipIds[id].tomb.value.version && seqNo == b.clipIds[id].tomb.value.seqNo
         case Err(_) => false
  {
    hide LogOk, LogIsState, RetentionOk, QuotaOk, SnapshotsOk, CreateRequestHash, RowChecks;
    ReachableIsOk(a);
    CreateFollows(a, device, env);
    var a1 := CreateStep(a, device, env).0;
    RunFollows(a1, actions);
    var b := Run(a1, actions);
    assert IdEvolves(a1, b, env.id);
    assert env.id in b.clips ==> RowOk(b, env.id);
    if env.id in b.clips {
      EnvelopeStays(a1, b, env.id);
    }
  }

  lemma StoredIsSized(env: Envelope)
    requires env.formatVersion == 1 && env.keyEpoch == 1 && env.contentType == "text/plain"
    requires |env.nonce| == 12 && 1 + 16 <= |env.ciphertext| <= 65536 + 16
    requires env.deliveryIntent in {"live", "history_only"}
    ensures Sized(CreateFields(env))
  {
  }

  /** Also on a retry: whenever a create is answered with success, the row, while it is there, is this envelope. */
  lemma AcceptedIsStored(a: Account, device: Uuid, env: Envelope, actions: seq<Action>)
    requires Reachable(a) && CreateStep(a, device, env).1.Ok? && Sized(CreateFields(env))
    ensures var b := Run(CreateStep(a, device, env).0, actions);
      && env.id in b.clipIds
      && (env.id in b.clips ==> b.clips[env.id].env == env)
  {
    hide Inv, CreateRequestHash, Tells, Reachable;
    var a1 := CreateStep(a, device, env).0;
    ReachableIsTrue(a);
    CreateIsTrue(a, device, env);
    CreateFollows(a, device, env);
    CreateRegisters(a, device, env);
    RunFollows(a1, actions);
    RunIsTrue(a1, actions);
    var b := Run(a1, actions);
    RegistrationsAreKept(a1, b);
    if env.id in b.clips {
      assert RowTrue(b, env.id);
      StoredIsSized(b.clips[env.id].env);
      CreateHashInjective(env, b.clips[env.id].env);
    }
  }

  // ----- how long things last -----

  /** Trash can be read and restored for exactly 168 hours. */
  lemma TrashLastsAWeek(a: Account, id: Uuid, op: Uuid, wait: nat, op': Uuid)
    requires Reachable(a) && op !in a.receipts && op' !in a.receipts && op != op'
    requires id in a.clips && a.clips[id].status == Active
    ensures var v := a.clips[id].version;
      var (trashed, r) := MutateStep(a, id, op, TrashOp, v, false);
      var b := Step(trashed, Tick(wait));
      && r.Ok?
      && (GetClip(b, id).Ok? <==> wait < 168 * HOUR)
      && (MutateStep(b, id, op', RestoreOp, v + 1, false).1.Ok? <==> wait < 168 * HOUR)
  {
    assert RowOk(a, id) by { ReachableIsOk(a); }
  }

  /** An operation id answers its request again for exactly thirty days. */
  lemma KeyLivesThirtyDays(a: Account, id: Uuid, op: Uuid, kind: MutationKind, version: int, skewed: bool, wait: nat)
    requires Reachable(a) && op !in a.receipts && MutateStep(a, id, op, kind, version, skewed).1.Ok?
    ensures var (a1, r) := MutateStep(a, id, op, kind, version, skewed);
      var b := Step(a1, Tick(wait));
      && MutateStep(b, id, op, kind, version, skewed).0 == b
      && (MutateStep(b, id, op, kind, version, skewed).1 == r <==> wait < 30 * 24 * HOUR)
      && (MutateStep(b, id, op, kind, version, skewed).1.Ok? <==> wait < 30 * 24 * HOUR)
  {
    hide Inv, ApplyMutation, OperationRequestHash;
    ReachableIsOk(a);
    var a1 := MutateStep(a, id, op, kind, version, skewed).0;
    var b := Step(a1, Tick(wait));
    OutcomeIsNew(a, id, op, kind, version, skewed);
    MutateFollows(a, id, op, kind, version, skewed);
    EffectRaisesVersion(a, id, version, op, kind, skewed);
    assert VersionPassed(b, id, version);
    PassedVersionIsRefused(b, id, version, kind, skewed);
  }

  lemma OutcomeIsNew(a: Account, id: Uuid, op: Uuid, kind: MutationKind, version: int, skewed: bool)
    requires Inv(a) && op !in a.receipts && MutateStep(a, id, op, kind, version, skewed).1.Ok?
    ensures var (a1, r) := MutateStep(a, id, op, kind, version, skewed);
      && a1.log != a.log && a1.clock == a.clock
      && a1.receipts == a.receipts[op :=
           StoredReceipt(OperationRequestHash(kind, id, version), r.value, a.clock + 30 * 24 * HOUR)]
  {
    hide Inv, ApplyMutation, OperationRequestHash;
    AppliedTells(a, id, kind, version, skewed);
    ApplyKeepsReceipts(a, id, kind, version, skewed);
    ApplyKeepsEra(a, id, kind, version, skewed);
    LogGrows(a, id, kind, version, skewed);
  }

  lemma LogGrows(a: Account, id: Uuid, kind: MutationKind, expected: int, skewed: bool)
    requires ApplyMutation(a, id, kind, expected, skewed).1.Ok?
    ensures |ApplyMutation(a, id, kind, expected, skewed).0.log| == |a.log| + 1
  {
  }

  lemma PassedVersionIsRefused(a: Account, id: Uuid, version: int, kind: MutationKind, skewed: bool)
    requires VersionPassed(a, id, version)
    ensures ApplyMutation(a, id, kind, version, skewed).1.Err?
  {
  }

  /**
   * A scan session answers its own device, in its own epoch, for fifteen minutes, with pages from where next_seq
   * stood when it began; each other request for it is refused with the code of the first reason.
   */
  lemma SessionAnswers(a: Account, device: Uuid, token: nat, actions: seq<Action>, asking: Uuid, page: Option<Uuid>,
      limit: nat)
    requires Reachable(a) && limit > 0 && BeginSnapshot(a, device, token).1.Ok?
    ensures var (a1, s) := BeginSnapshot(a, device, token);
      var b := Run(a1, actions);
      var r := SnapshotRead(b, asking, token, page, limit);
      && device in a.devices && token !in a.issued
      && s.value == Snapshot(token, a.nextSeq, a.epoch, a.clock + 15 * 60 * 1_000_000)
      && (token !in b.snapshots ==> r == Err(SnapshotExpired))
      && (token in b.snapshots && asking != device ==> r == Err(NotFound))
      && (token in b.snapshots && asking == device && b.epoch != a.epoch ==> r == Err(SyncResetRequired(b.epoch)))
      && (token in b.snapshots && asking == device && b.epoch == a.epoch ==>
            && (r == Err(SnapshotExpired) <==> a.clock + 15 * 60 * 1_000_000 <= b.clock)
            && (b.clock < a.clock + 15 * 60 * 1_000_000 ==>
                  var from := if page.Some? then page.value else 0;
                  var rows := ScanPage(b, a.nextSeq, from, limit);
                  r == Ok(SnapshotPage(a.nextSeq, a.epoch, rows.0, rows.1))))
  {
    hide Inv, ScanPage;
    ReachableIsOk(a);
    QuietStepFollows(a, StartSnapshot(device, token));
    RunFollows(BeginSnapshot(a, device, token).0, actions);
  }
}
