/** What holds over every run of one account: the promises behind idempotency, retention and deletion. */
module History {
  import opened Domain
  import opened Accounts
  import opened EventLog
  import opened Invariant
  import opened Evolution
  import opened Runs
  import opened Canon

  // ----- the log is the state -----

  /** A life read off the log: its version counts the id's events, its last_seq is the number of the newest. */
  predicate Summarises(log: seq<Event>, id: Uuid, l: Life) {
    && 1 <= l.createdSeq <= l.lastSeq <= |log|
    && l.version == EventsOf(log, id)
    && log[l.createdSeq - 1] == Event(l.createdSeq, id, Created, 1, log[l.createdSeq - 1].occurredAt)
    && log[l.lastSeq - 1].clipId == id && log[l.lastSeq - 1].version == l.version
    && forall i :: l.lastSeq <= i < |log| ==> log[i].clipId != id
  }

  lemma InvSummarises(a: Account, id: Uuid)
    requires LogOk(a) && LogIsState(a) && id in a.clipIds
    ensures Summarises(a.log, id, LifeOf(a, id))
  {
    LifeSummarises(a.log, id);
    assert View(a)[id] == LifeOf(a, id);
  }

  /** In any reachable state a clip's row, or the tombstone of a purged one, is what its events say. */
  lemma RowIsItsEvents(a: Account, id: Uuid)
    requires Reachable(a) && id in a.clipIds
    ensures Replay(a.log) == Some(View(a))
    ensures Summarises(a.log, id, LifeOf(a, id))
    ensures id in a.clips ==>
      var c := a.clips[id];
      var phase := if c.status == Active then Live else Binned;
      LifeOf(a, id) == Life(phase, c.version, c.createdSeq, c.lastSeq, c.expiresAt)
    ensures id !in a.clips ==>
      && a.clipIds[id].tomb.Some?
      && var t := a.clipIds[id].tomb.value;
         LifeOf(a, id) == Life(Gone, t.version, a.clipIds[id].createdSeq, t.seqNo, None)
  {
    ReachableIsOk(a);
    InvSummarises(a, id);
  }

  /** Each clip reaches each version through one event at most, whoever caused it. */
  lemma OneEventPerVersion(a: Account, i: nat, j: nat)
    requires Reachable(a) && i < j < |a.log|
    ensures !(a.log[i].clipId == a.log[j].clipId && a.log[i].version == a.log[j].version)
    ensures a.log[i].clipId == a.log[j].clipId ==> a.log[j].kind != Created
  {
    ReachableIsOk(a);
    if a.log[i].clipId == a.log[j].clipId {
      VersionUsedOnce(a.log, i, j);
      VersionsCount(a.log, i);
      VersionsCount(a.log, j);
    }
  }

  /** Quota counters equal what they count and never pass the configured maxima. */
  lemma QuotaConserved(a: Account)
    requires Reachable(a)
    ensures a.itemCount == |a.clips| <= a.cfg.maxItems
    ensures a.ciphertextBytes == SumBytes(a.clips) <= a.cfg.maxCiphertextBytes
  {
    ReachableIsOk(a);
  }

  // ----- retention and change pages -----

  /**
   * After any run the retained numbers are exactly min_available_seq .. next_seq, and the lower end never moves
   * back.
   */
  lemma RetainedSuffix(a: Account, actions: seq<Action>)
    requires Reachable(a)
    ensures var b := Run(a, actions);
      && b.nextSeq == |b.log| && 1 <= b.minAvailableSeq
      && (forall s :: s in b.events <==> b.minAvailableSeq <= s <= b.nextSeq)
      && (forall s :: s in b.events ==> b.events[s] == b.log[s - 1])
      && a.minAvailableSeq <= b.minAvailableSeq && a.nextSeq <= b.nextSeq && a.log <= b.log
  {
    ReachableIsOk(a);
    RunFollows(a, actions);
  }

  lemma {:induction false} QueryIsLogSlice(a: Account, after: nat, high: nat, limit: nat)
    requires LogOk(a) && RetentionOk(a) && a.minAvailableSeq <= after + 1 && after <= high <= a.nextSeq
    ensures Query(a.events, after, high, limit) == a.log[after..Min(after + limit, high)]
    decreases high - after
  {
    if after < high && limit > 0 {
      QueryIsLogSlice(a, after + 1, high, limit - 1);
      assert a.log[after..Min(after + limit, high)] == [a.log[after]] + a.log[after + 1..Min(after + limit, high)];
    }
  }

  /** An accepted page holds exactly the events after the cursor, without a gap, and more to come means progress. */
  lemma PageHasNoGap(a: Account, epoch: Uuid, after: nat, limit: nat)
    requires Inv(a) && limit > 0
    ensures Changes(a, epoch, after, limit).Ok? <==>
      epoch == a.epoch && after <= a.nextSeq && a.minAvailableSeq <= after + 1
    ensures Changes(a, epoch, after, limit) == Err(SyncResetRequired(a.epoch)) <==>
      epoch != a.epoch || a.nextSeq < after
    ensures Changes(a, epoch, after, limit) == Err(CursorExpired(a.epoch, a.minAvailableSeq)) <==>
      epoch == a.epoch && after <= a.nextSeq && after + 1 < a.minAvailableSeq
    ensures Changes(a, epoch, after, limit).Ok? ==>
      var p := Changes(a, epoch, after, limit).value;
      && p.epoch == a.epoch && p.high == a.nextSeq && p.nextSeq == Min(after + limit, a.nextSeq)
      && p.events == a.log[after..p.nextSeq]
      && (p.hasMore <==> p.nextSeq < p.high)
      && (p.hasMore ==> p.nextSeq == after + limit)
  {
    if Changes(a, epoch, after, limit).Ok? {
      QueryIsLogSlice(a, after, a.nextSeq, limit);
    }
  }

  predicate StartsAt(page: seq<Event>, min: nat) {
    forall i :: 0 <= i < |page| ==> page[i].seqNo >= min
  }

  lemma {:induction false} QueryStartsLate(events: map<nat, Event>, after: nat, high: nat, limit: nat, min: nat)
    requires forall s :: s in events ==> s >= min && events[s].seqNo == s
    ensures StartsAt(Query(events, after, high, limit), min)
    decreases high - after
  {
    if after < high && limit > 0 {
      QueryStartsLate(events, after + 1, high, if after + 1 in events then limit - 1 else limit, min);
    }
  }

  /**
   * With the two reads apart, the page is the gap-free one exactly when retention has not passed
   * the cursor in between, or there was nothing to return.
   */
  lemma SplitReadIsExactIff(a: Account, actions: seq<Action>, epoch: Uuid, after: nat, limit: nat)
    requires Reachable(a) && limit > 0 && Changes(a, epoch, after, limit).Ok?
    ensures var b := Run(a, actions);
      (SplitChanges(a, b, epoch, after, limit) == Changes(a, epoch, after, limit)
       <==> b.minAvailableSeq <= after + 1 || after == a.nextSeq)
  {
    ReachableIsOk(a);
    RunFollows(a, actions);
    QueriesAgreeIff(a, Run(a, actions), after, limit);
  }

  lemma QueriesAgreeIff(a: Account, b: Account, after: nat, limit: nat)
    requires LogOk(a) && RetentionOk(a) && LogOk(b) && RetentionOk(b) && a.log <= b.log && limit > 0
    requires a.minAvailableSeq <= after + 1 && after <= a.nextSeq <= b.nextSeq
    ensures Query(b.events, after, a.nextSeq, limit) == Query(a.events, after, a.nextSeq, limit)
      <==> b.minAvailableSeq <= after + 1 || after == a.nextSeq
  {
    QueryIsLogSlice(a, after, a.nextSeq, limit);
    if b.minAvailableSeq <= after + 1 {
      QueryIsLogSlice(b, after, a.nextSeq, limit);
    } else if after < a.nextSeq {
      QueryStartsLate(b.events, after, a.nextSeq, limit, b.minAvailableSeq);
      var page, split := Query(a.events, after, a.nextSeq, limit), Query(b.events, after, a.nextSeq, limit);
      assert page[0].seqNo == after + 1;
      assert |split| > 0 ==> split[0].seqNo > after + 1;
    }
  }

  // ----- what one request does -----

  function EventKindOf(kind: MutationKind): EventKind {
    match kind
    case TrashOp => Trashed
    case RestoreOp => Restored
    case PurgeOp => Purged
  }

  /** When a mutation that was not seen before goes through. */
  predicate Allowed(a: Account, id: Uuid, kind: MutationKind, expected: int, skewed: bool) {
    && id in a.clips && a.clips[id].version == expected
    && (if kind == TrashOp then a.clips[id].status == Active && !skewed else a.clips[id].status == Trash)
    && (kind == RestoreOp ==> !IsExpired(a.clips[id], a.clock))
  }

  /** `b` is `a` with one event more, which advances the clip's life and touches no other clip. */
  predicate OneEventLater(a: Account, b: Account, id: Uuid, e: Event) {
    && b.log == a.log + [e] && e == Event(a.nextSeq + 1, id, e.kind, e.version, a.clock)
    && id in a.clipIds && id in b.clipIds && Advance(LifeOf(a, id), e) == Some(LifeOf(b, id))
  }

  /** Nothing but the tables of clips, events and counters has changed. */
  predicate SameSurroundings(a: Account, b: Account) {
    && b.cfg == a.cfg && b.clock == a.clock && b.epoch == a.epoch && b.vault == a.vault && b.devices == a.devices
    && b.snapshots == a.snapshots && b.issued == a.issued && b.minAvailableSeq == a.minAvailableSeq
  }

  /** What the event has made of the clip: only trashing sets the two times, and nothing alters the envelope. */
  predicate RowAfter(a: Account, b: Account, id: Uuid, e: Event) {
    match e.kind
    case Created => false
    case Purged => id !in b.clips
    case _ =>
      && id in a.clips && id in b.clips
      && var c, d := a.clips[id], b.clips[id];
         && d.env == c.env && d.createdSeq == c.createdSeq && d.createdAt == c.createdAt
         && d.status == (if e.kind == Trashed then Trash else Active)
         && d.deletedAt == (if e.kind == Trashed then Some(e.occurredAt) else None)
  }

  /** `r` reports event `e`, which turned `a` into `b`: the clip, its new status, and the times of its row. */
  ghost predicate ReceiptReports(a: Account, b: Account, id: Uuid, e: Event, r: Receipt) {
    && OneEventLater(a, b, id, e) && SameElsewhere(a, b, id) && SameSurroundings(a, b) && RowAfter(a, b, id, e)
    && r.id == id && r.version == e.version && r.seqNo == e.seqNo && r.expiresAt == LifeOf(b, id).expiresAt
    && (r.status == IsTrash <==> e.kind == Trashed)
    && (r.status == IsActive <==> e.kind == Restored)
    && (r.status == IsPurged <==> e.kind == Purged)
    && r.createdAt == None
    && r.deletedAt == (if id in b.clips then b.clips[id].deletedAt else None)
  }

  lemma BumpReports(a: Account, id: Uuid, status: Status)
    requires RowsOk(a) && id in a.clips && a.clips[id].status != status
    requires status == Active ==> !IsExpired(a.clips[id], a.clock)
    ensures var kind := if status == Trash then Trashed else Restored;
      ReceiptReports(a, Bump(a, id, status), id, Event(a.nextSeq + 1, id, kind, a.clips[id].version + 1, a.clock),
                     BumpReceipt(BumpedClip(a, a.clips[id], status)))
  {
    assert RowOk(a, id);
  }

  lemma PurgeReports(a: Account, id: Uuid, r: Receipt)
    requires RowsOk(a) && id in a.clips && a.clips[id].status == Trash && id in a.clipIds
    requires r == Receipt(id, IsPurged, a.clips[id].version + 1, a.nextSeq + 1, None, None, None)
    ensures
      ReceiptReports(a, Purge(a, id), id, Event(a.nextSeq + 1, id, Purged, a.clips[id].version + 1, a.clock), r)
  {
    assert RowOk(a, id);
  }

  lemma ApplyOutcome(a: Account, id: Uuid, kind: MutationKind, expected: int, skewed: bool)
    requires RowsOk(a)
    ensures var (b, r) := ApplyMutation(a, id, kind, expected, skewed);
      && (r.Ok? <==> Allowed(a, id, kind, expected, skewed))
      && (r.Err? ==> b == a)
      && (r.Ok? ==>
            ReceiptReports(a, b, id, Event(a.nextSeq + 1, id, EventKindOf(kind), expected + 1, a.clock), r.value))
  {
    hide RowsOk, Bump, Purge, ReceiptReports, BumpReceipt;
    if id in a.clips {
      assert RowOk(a, id) by { RowIsOk(a, id); }
      if ApplyMutation(a, id, kind, expected, skewed).1.Ok? {
        match kind
        case TrashOp => BumpReports(a, id, Trash);
        case RestoreOp => BumpReports(a, id, Active);
        case PurgeOp => PurgeReports(a, id, ApplyMutation(a, id, kind, expected, skewed).1.value);
      }
    }
  }

  lemma RowIsOk(a: Account, id: Uuid)
    requires RowsOk(a) && id in a.clips
    ensures RowOk(a, id)
  {
  }

  predicate Replays(a: Account, id: Uuid, op: Uuid, kind: MutationKind, expected: int) {
    ReceiptLives(a, op) && a.receipts[op].hash == OperationRequestHash(kind, id, expected)
  }

  /**
   * Success is a replay of a living receipt, which changes nothing, or a new effect under an unused key: one
   * legal event, told by the receipt. A key whose receipt has expired but still lies in the table aborts
   * what would have been allowed.
   */
  lemma MutationOutcome(a: Account, id: Uuid, op: Uuid, kind: MutationKind, expected: int, skewed: bool)
    requires Reachable(a)
    ensures var (b, r) := MutateStep(a, id, op, kind, expected, skewed);
      && (r.Ok? <==>
            Replays(a, id, op, kind, expected) || (op !in a.receipts && Allowed(a, id, kind, expected, skewed)))
      && (r.Err? ==> b == a)
      && (Replays(a, id, op, kind, expected) ==> b == a && r == Ok(a.receipts[op].receipt))
      && (r.Ok? && op !in a.receipts ==>
            && ReceiptReports(a, b, id, Event(a.nextSeq + 1, id, EventKindOf(kind), expected + 1, a.clock), r.value)
            && b.receipts == a.receipts[op :=
                 StoredReceipt(OperationRequestHash(kind, id, expected), r.value, a.clock + RECEIPT_PERIOD)])
      && (op in a.receipts && !ReceiptLives(a, op) && Allowed(a, id, kind, expected, skewed) ==> r == Err(Unavailable))
  {
    hide Inv, Reachable, ApplyMutation, ReceiptReports, OperationRequestHash;
    assert RowsOk(a) by {
      ReachableIsOk(a);
      InvHasRows(a);
    }
    ApplyOutcome(a, id, kind, expected, skewed);
    ApplyKeepsReceipts(a, id, kind, expected, skewed);
    var (b, r) := ApplyMutation(a, id, kind, expected, skewed);
    if r.Ok? {
      var e := Event(a.nextSeq + 1, id, EventKindOf(kind), expected + 1, a.clock);
      var stored := StoredReceipt(OperationRequestHash(kind, id, expected), r.value, a.clock + RECEIPT_PERIOD);
      ReceiptTouchesNoRow(a, b, id, e, r.value, b.receipts[op := stored]);
    }
  }

  lemma ReceiptTouchesNoRow(a: Account, b: Account, id: Uuid, e: Event, r: Receipt, receipts: map<Uuid, StoredReceipt>)
    requires ReceiptReports(a, b, id, e, r)
    ensures ReceiptReports(a, b.(receipts := receipts), id, e, r)
  {
  }

  /**
   * A key used for a trash can be 30 days old and uncleaned when it is used again, for a purge that is allowed:
   * the purge aborts, and succeeds under any unused key.
   */
  lemma ExpiredReceiptBlocks(a: Account, id: Uuid, op: Uuid, op': Uuid)
    requires Reachable(a) && id in a.clips && a.clips[id].status == Active
    requires op !in a.receipts && op' !in a.receipts && op != op'
    ensures var v := a.clips[id].version;
      var b := Step(MutateStep(a, id, op, TrashOp, v, false).0, Tick(RECEIPT_PERIOD));
      && MutateStep(b, id, op, PurgeOp, v + 1, false) == (b, Err(Unavailable))
      && MutateStep(b, id, op', PurgeOp, v + 1, false).1.Ok?
  {
    assert RowOk(a, id) by {
      ReachableIsOk(a);
    }
  }

  predicate Fits(a: Account, env: Envelope, count: int, bytes: int) {
    count < a.cfg.maxItems && bytes + |env.ciphertext| <= a.cfg.maxCiphertextBytes && RowChecks(env)
  }

  /** A new id is taken in exactly when it fits both quotas and the row constraints, as version 1 of a new life. */
  lemma CreateOutcome(a: Account, device: Uuid, env: Envelope)
    requires Reachable(a) && Admit(a, device, env) == None && env.id !in a.clipIds
    ensures var (b, r) := CreateStep(a, device, env);
      && (r.Ok? <==> Fits(a, env, |a.clips|, SumBytes(a.clips)))
      && (r.Err? ==> b == a)
      && (r.Ok? ==>
            && r.value == CreateResult(CreateReceipt(env.id, a.nextSeq + 1, a.clock), true)
            && b.log == a.log + [Event(a.nextSeq + 1, env.id, Created, 1, a.clock)] && SameElsewhere(a, b, env.id)
            && env.id in b.clips && b.clips[env.id].env == env
            && env.id in b.clipIds && LifeOf(b, env.id) == Life(Live, 1, a.nextSeq + 1, a.nextSeq + 1, None)
            && Registered(b, env))
  {
    ReachableIsOk(a);
    hide Inv, RowChecks, Admit, Replay, View;
    CountersCount(a);
    InsertOutcome(a, env, CreateRequestHash(env));
  }

  lemma CountersCount(a: Account)
    requires Inv(a)
    ensures a.itemCount == |a.clips| && a.ciphertextBytes == SumBytes(a.clips)
  {
  }

  lemma InsertOutcome(a: Account, env: Envelope, hash: Digest)
    ensures var b := Insert(a, env, hash);
      && b.log == a.log + [Event(a.nextSeq + 1, env.id, Created, 1, a.clock)] && SameElsewhere(a, b, env.id)
      && env.id in b.clips && b.clips[env.id].env == env
      && env.id in b.clipIds && LifeOf(b, env.id) == Life(Live, 1, a.nextSeq + 1, a.nextSeq + 1, None)
      && b.clipIds[env.id].hash == hash
  {
  }

  // ----- mutations take effect once -----

  /** The version of id is past `version`, or its tombstone is at least there: no request for `version` can apply. */
  predicate VersionPassed(a: Account, id: Uuid, version: int) {
    && id in a.clipIds
    && (id in a.clips ==> a.clips[id].version > version)
    && (id !in a.clips ==> a.clipIds[id].tomb.Some?)
  }

  lemma PassedVersionIsInert(a: Account, id: Uuid, version: int, op: Uuid, kind: MutationKind, skewed: bool)
    requires VersionPassed(a, id, version)
    ensures MutateStep(a, id, op, kind, version, skewed).0 == a
  {
  }

  lemma VersionStaysPassed(a: Account, actions: seq<Action>, id: Uuid, version: int)
    requires Inv(a) && VersionPassed(a, id, version)
    ensures VersionPassed(Run(a, actions), id, version)
  {
    hide LogOk, RetentionOk, LogIsState, QuotaOk, SnapshotsOk;
    RunFollows(a, actions);
    var b := Run(a, actions);
    assert IdEvolves(a, b, id);
    assert id in b.clips ==> RowOk(b, id);
  }

  /** Whatever happens in between, a second request for the same version changes nothing. */
  lemma MutationTakesEffectOnce(
      a: Account, id: Uuid, version: int, op: Uuid, kind: MutationKind, skewed: bool,
      actions: seq<Action>, op': Uuid, kind': MutationKind, skewed': bool)
    requires Reachable(a)
    requires MutateStep(a, id, op, kind, version, skewed).0.log != a.log
    ensures var b := Run(MutateStep(a, id, op, kind, version, skewed).0, actions);
      MutateStep(b, id, op', kind', version, skewed').0 == b
  {
    ReachableIsOk(a);
    var a1 := MutateStep(a, id, op, kind, version, skewed).0;
    EffectRaisesVersion(a, id, version, op, kind, skewed);
    MutateFollows(a, id, op, kind, version, skewed);
    VersionStaysPassed(a1, actions, id, version);
    PassedVersionIsInert(Run(a1, actions), id, version, op', kind', skewed');
  }

  lemma EffectRaisesVersion(a: Account, id: Uuid, version: int, op: Uuid, kind: MutationKind, skewed: bool)
    requires Inv(a) && MutateStep(a, id, op, kind, version, skewed).0.log != a.log
    ensures var b := MutateStep(a, id, op, kind, version, skewed).0;
      && id in b.clipIds
      && (id in b.clips ==> b.clips[id].version == version + 1)
      && (id !in b.clips ==> b.clipIds[id].tomb.Some? && b.clipIds[id].tomb.value.version == version + 1)
  {
    assert id in a.clips;
    assert RowOk(a, id);
  }

  lemma {:induction false} ReceiptPersists(a: Account, actions: seq<Action>, op: Uuid)
    requires op in a.receipts && Run(a, actions).clock < a.receipts[op].expiresAt && Inv(a)
    ensures op in Run(a, actions).receipts && Run(a, actions).receipts[op] == a.receipts[op]
  {
    if |actions| > 0 {
      var b := Run(a, actions[..|actions| - 1]);
      RunFollows(a, actions[..|actions| - 1]);
      StepFollows(b, actions[|actions| - 1]);
      ReceiptPersists(a, actions[..|actions| - 1], op);
      LiveReceiptStays(b, actions[|actions| - 1], op);
    }
  }

  lemma {:induction false} PurgingKeepsReceipts(a: Account, ids: seq<Uuid>)
    ensures PurgeAll(a, ids).receipts == a.receipts
  {
    if |ids| > 0 {
      PurgingKeepsReceipts(a, ids[..|ids| - 1]);
    }
  }

  lemma LiveReceiptStays(a: Account, action: Action, op: Uuid)
    requires op in a.receipts && Step(a, action).clock < a.receipts[op].expiresAt && a.clock <= Step(a, action).clock
    ensures op in Step(a, action).receipts && Step(a, action).receipts[op] == a.receipts[op]
  {
    hide MutateStep, Retain, BeginSnapshot, Revoke;
    match action
    case PurgeExpired => PurgingKeepsReceipts(a, Expiry.BatchIds(a));
    case Mutate(id, op', kind, expected, skewed) => MutatingKeepsReceipts(a, id, op', kind, expected, skewed, op);
    case RetainEvents(days) => RetainKeepsReceipts(a, days);
    case StartSnapshot(device, token) => StartKeepsReceipts(a, device, token);
    case RevokeDevice(device) => RevokeKeepsReceipts(a, device);
    case _ =>
  }

  lemma MutatingKeepsReceipts(
      a: Account, id: Uuid, used: Uuid, kind: MutationKind, expected: int, skewed: bool, op: Uuid)
    requires op in a.receipts
    ensures var b := MutateStep(a, id, used, kind, expected, skewed).0;
      op in b.receipts && b.receipts[op] == a.receipts[op]
  {
    hide ApplyMutation, MutateClip, OperationRequestHash;
    MutateShape(a, id, used, kind, expected, OperationRequestHash(kind, id, expected), skewed);
    ApplyKeepsReceipts(a, id, kind, expected, skewed);
  }

  lemma RetainKeepsReceipts(a: Account, days: int)
    ensures Retain(a, days).receipts == a.receipts
  {
  }

  lemma StartKeepsReceipts(a: Account, device: Uuid, token: nat)
    ensures BeginSnapshot(a, device, token).0.receipts == a.receipts
  {
  }

  lemma RevokeKeepsReceipts(a: Account, device: Uuid)
    ensures Revoke(a, device).receipts == a.receipts
  {
  }

  lemma ApplyKeepsReceipts(a: Account, id: Uuid, kind: MutationKind, expected: int, skewed: bool)
    ensures ApplyMutation(a, id, kind, expected, skewed).0.receipts == a.receipts
  {
  }

  /** While the receipt lives, sending the same request again returns it and changes nothing. */
  lemma ReplayReturnsReceipt(a: Account, id: Uuid, op: Uuid, kind: MutationKind, version: int, skewed: bool,
                             actions: seq<Action>, skewed': bool)
    requires Reachable(a) && MutateStep(a, id, op, kind, version, skewed).1.Ok?
    ensures var (a1, r) := MutateStep(a, id, op, kind, version, skewed);
      && op in a1.receipts
      && (a1.log != a.log ==> a1.receipts[op].expiresAt == a.clock + RECEIPT_PERIOD)
      && var b := Run(a1, actions);
         b.clock < a1.receipts[op].expiresAt ==> MutateStep(b, id, op, kind, version, skewed') == (b, r)
  {
    ReachableIsOk(a);
    var (a1, r) := MutateStep(a, id, op, kind, version, skewed);
    MutateFollows(a, id, op, kind, version, skewed);
    if Run(a1, actions).clock < a1.receipts[op].expiresAt {
      ReceiptPersists(a1, actions, op);
    }
  }

  // ----- no resurrection -----

  /** The server knows this envelope, and no other, under its id. */
  predicate Registered(a: Account, env: Envelope) {
    env.id in a.clipIds && a.clipIds[env.id].hash == CreateRequestHash(env)
  }

  predicate RegistrationsKept(a: Account, b: Account) {
    forall id :: id in a.clipIds ==> id in b.clipIds && b.clipIds[id].hash == a.clipIds[id].hash
  }

  lemma RegistrationsAreKept(a: Account, b: Account)
    requires Follows(a, b)
    ensures RegistrationsKept(a, b)
  {
    forall id | id in a.clipIds ensures id in b.clipIds && b.clipIds[id].hash == a.clipIds[id].hash {
      assert IdEvolves(a, b, id);
    }
  }

  lemma RegistryAnswers(a: Account, b: Account, id: Uuid, device: Uuid, env: Envelope)
    requires Inv(a) && Follows(a, b) && id in a.clipIds && env.id == id && Admit(b, device, env) == None
    ensures var reg := a.clipIds[id];
      CreateStep(b, device, env) ==
        (b, if reg.hash == CreateRequestHash(env)
            then Ok(CreateResult(CreateReceipt(id, reg.createdSeq, reg.createdAt), false))
            else Err(IdempotencyConflict))
  {
    assert IdEvolves(a, b, id);
  }

  /** Once registered, an id answers every later create from the registry, whatever became of the clip. */
  lemma CreateIsRemembered(a: Account, id: Uuid, actions: seq<Action>, device: Uuid, env: Envelope)
    requires Reachable(a) && id in a.clipIds && env.id == id
    requires Admit(Run(a, actions), device, env) == None
    ensures var b, reg := Run(a, actions), a.clipIds[id];
      CreateStep(b, device, env) ==
        (b, if reg.hash == CreateRequestHash(env)
            then Ok(CreateResult(CreateReceipt(id, reg.createdSeq, reg.createdAt), false))
            else Err(IdempotencyConflict))
  {
    ReachableIsOk(a);
    RunFollows(a, actions);
    RegistryAnswers(a, Run(a, actions), id, device, env);
  }

  /** The receipt of a create comes back on every retry; another envelope under the same id is refused. */
  lemma CreateIsIdempotent(a: Account, device: Uuid, env: Envelope, actions: seq<Action>, device': Uuid, env': Envelope)
    requires Reachable(a) && CreateStep(a, device, env).1.Ok? && env'.id == env.id
    requires Sized(CreateFields(env)) && Sized(CreateFields(env'))
    requires Admit(Run(CreateStep(a, device, env).0, actions), device', env') == None
    ensures var (a1, r) := CreateStep(a, device, env);
      var b := Run(a1, actions);
      CreateStep(b, device', env') ==
        (b, if env' == env then Ok(CreateResult(r.value.receipt, false)) else Err(IdempotencyConflict))
  {
    hide Inv, Evolves, CreateRequestHash;
    var a1 := CreateStep(a, device, env).0;
    ReachableIsOk(a);
    CreateFollows(a, device, env);
    RunFollows(a1, actions);
    CreateHashInjective(env, env');
    CreateRegisters(a, device, env);
    RegistryAnswers(a1, Run(a1, actions), env.id, device', env');
  }

  lemma CreateRegisters(a: Account, device: Uuid, env: Envelope)
    ensures var (b, r) := CreateStep(a, device, env);
      r.Ok? ==>
        && Registered(b, env)
        && var reg := b.clipIds[env.id];
           r.value.receipt == CreateReceipt(env.id, reg.createdSeq, reg.createdAt)
  {
  }

  /** A purged id stays purged: no run brings the row back or alters the tombstone. */
  lemma NoResurrection(a: Account, id: Uuid, actions: seq<Action>, op: Uuid, kind: MutationKind, expected: int,
      skewed: bool)
    requires Reachable(a) && id in a.clipIds && a.clipIds[id].tomb.Some?
    ensures var b, t := Run(a, actions), a.clipIds[id].tomb.value;
      && id !in b.clips && id in b.clipIds && b.clipIds[id] == a.clipIds[id]
      && GetClip(b, id) == Err(ClipPurged(t.version, t.seqNo))
      && MutateStep(b, id, op, kind, expected, skewed).0 == b
  {
    hide Reachable, LogOk, RetentionOk, LogIsState, QuotaOk, SnapshotsOk, MutateStep, GetClip;
    ReachableIsOk(a);
    RunFollows(a, actions);
    var b := Run(a, actions);
    assert IdEvolves(a, b, id);
    assert id in b.clips ==> RowOk(b, id);
    GoneIsGone(b, id, op, kind, expected, skewed);
  }

  lemma GoneIsGone(b: Account, id: Uuid, op: Uuid, kind: MutationKind, expected: int, skewed: bool)
    requires id !in b.clips && id in b.clipIds && b.clipIds[id].tomb.Some?
    ensures var t := b.clipIds[id].tomb.value; GetClip(b, id) == Err(ClipPurged(t.version, t.seqNo))
    ensures MutateStep(b, id, op, kind, expected, skewed).0 == b
  {
  }

  // ----- expired trash is one-way -----

  lemma ExpiredTrashIsOneWay(a: Account, id: Uuid, actions: seq<Action>)
    requires Reachable(a) && id in a.clips && IsExpired(a.clips[id], a.clock)
    ensures var b := Run(a, actions);
      && (if id in b.clips then b.clips[id] == a.clips[id] && IsExpired(b.clips[id], b.clock)
          else id in b.clipIds && b.clipIds[id].tomb.Some?)
      && GetClip(b, id).Err? && GetClip(b, id).error != NotFound
      && (forall f :: !Listed(b, f, id))
      && (forall base, after :: id !in ScanVisible(b, base, after))
  {
    ReachableIsOk(a);
    RunFollows(a, actions);
    var b := Run(a, actions);
    assert RowOk(a, id);
    assert IdEvolves(a, b, id);
    assert id in b.clips ==> RowOk(b, id);
  }
}
