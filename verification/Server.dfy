/** The server's store, statement by statement: a transaction works on a copy and commits it. */
module Server {
  import opened Domain
  import opened Ordered
  import opened Accounts
  import opened Invariant
  import opened Expiry
  import opened Runs
  import opened Canon
  import opened Listing

  // ----- ORDER BY -----

  method FindLeast(s: set<nat>) returns (m: nat)
    requires s != {}
    ensures m == Least(s)
  {
    m :| m in s;
    var rest := s - {m};
    while rest != {}
      invariant m in s && rest <= s
      invariant forall x :: x in s ==> x in rest || m <= x
      decreases |rest|
    {
      var x :| x in rest;
      if x < m { m := x; }
      rest := rest - {x};
    }
    assert IsLeast(s, m);
  }

  method OrderBy(s: set<nat>) returns (ids: seq<nat>)
    ensures ids == Ascending(s)
  {
    ids := [];
    var rest := s;
    while rest != {}
      invariant rest <= s
      invariant ids + Ascending(rest) == Ascending(s)
      decreases |rest|
    {
      var m := FindLeast(rest);
      ids, rest := ids + [m], rest - {m};
    }
  }

  method FindSoonest(clips: map<Uuid, Clip>, s: set<Uuid>) returns (m: Uuid)
    requires s <= clips.Keys && s != {}
    ensures m == Soonest(clips, s)
  {
    m :| m in s;
    var rest := s - {m};
    while rest != {}
      invariant m in s && rest <= s - {m}
      invariant forall x :: x in s && x != m ==> x in rest || Sooner(clips, m, x)
      decreases |rest|
    {
      var x :| x in rest;
      if Sooner(clips, x, m) { m := x; }
      rest := rest - {x};
    }
    assert IsSoonest(clips, s, m);
  }

  /** ORDER BY expires_at, id LIMIT n. */
  method OrderByExpiry(clips: map<Uuid, Clip>, s: set<Uuid>, n: nat) returns (ids: seq<Uuid>)
    requires s <= clips.Keys
    ensures ids == Queue(clips, s, n)
  {
    hide Sooner;
    ids := [];
    var rest := s;
    while rest != {} && |ids| < n
      invariant rest <= s && |ids| <= n
      invariant ids + Queue(clips, rest, n - |ids|) == Queue(clips, s, n)
      decreases |rest|
    {
      var m := FindSoonest(clips, rest);
      ids, rest := ids + [m], rest - {m};
    }
  }

  class Store {
    /** The committed state. */
    var db: Account

    constructor (cfg: Config, clock: Time, epoch: Uuid)
      ensures db == Fresh(cfg, clock, epoch) && Inv(db)
    {
      db := Fresh(cfg, clock, epoch);
      FreshIsOk(cfg, clock, epoch);
    }

    method CreateClip(device: Uuid, env: Envelope, reqHash: Digest) returns (r: Result<CreateResult>)
      modifies this
      ensures (db, r) == Accounts.CreateClip(old(db), device, env, reqHash)
    {
      if env.sourceDeviceId != device {
        return Err(InvalidRequest);
      }
      var tx := db;
      if tx.vault != Some(Vault(env.vaultId, env.keyEpoch)) {
        return Err(InvalidRequest);
      }
      if device !in tx.devices || tx.devices[device].Some? {
        return Err(DeviceRevoked);
      }
      if env.id in tx.clipIds {
        var reg := tx.clipIds[env.id];
        if reg.hash != reqHash {
          return Err(IdempotencyConflict);
        }
        return Ok(CreateResult(CreateReceipt(env.id, reg.createdSeq, reg.createdAt), false));
      }
      if tx.itemCount + 1 > tx.cfg.maxItems || tx.ciphertextBytes + |env.ciphertext| > tx.cfg.maxCiphertextBytes {
        return Err(QuotaExceeded);
      }
      tx := tx.(nextSeq := tx.nextSeq + 1, itemCount := tx.itemCount + 1,
                ciphertextBytes := tx.ciphertextBytes + |env.ciphertext|);
      var seqNo, created := tx.nextSeq, tx.clock;
      tx := tx.(clipIds := tx.clipIds[env.id := Registration(reqHash, seqNo, created, None)]);
      if !RowChecks(env) {
        return Err(Unavailable);
      }
      tx := tx.(clips := tx.clips[env.id := Clip(env, Active, 1, seqNo, seqNo, created, None, None)]);
      var e := Event(seqNo, env.id, Created, 1, created);
      tx := tx.(events := tx.events[seqNo := e], log := tx.log + [e]);
      db := tx;
      return Ok(CreateResult(CreateReceipt(env.id, seqNo, created), true));
    }

    method MutateClip(id: Uuid, op: Uuid, kind: MutationKind, expected: int, reqHash: Digest, skewed: bool)
      returns (r: Result<Receipt>)
      requires RowsOk(db)
      modifies this
      ensures (db, r) == Accounts.MutateClip(old(db), id, op, kind, expected, reqHash, skewed)
    {
      var tx := db;
      if op in tx.receipts && tx.receipts[op].expiresAt > tx.clock {
        if tx.receipts[op].hash != reqHash {
          return Err(IdempotencyConflict);
        }
        return Ok(tx.receipts[op].receipt);
      }
      tx, r := TxApply(tx, id, kind, expected, skewed);
      if r.Err? {
        return;
      }
      if op in tx.receipts {
        return Err(Unavailable);
      }
      tx := tx.(receipts := tx.receipts[op := StoredReceipt(reqHash, r.value, tx.clock + RECEIPT_PERIOD)]);
      db := tx;
    }

    static method TxApply(tx0: Account, id: Uuid, kind: MutationKind, expected: int, skewed: bool)
      returns (tx: Account, r: Result<Receipt>)
      requires RowsOk(tx0)
      ensures (tx, r) == ApplyMutation(tx0, id, kind, expected, skewed)
      ensures tx.receipts == tx0.receipts && tx.clock == tx0.clock
    {
      tx := tx0;
      if id !in tx.clips {
        return tx, Err(GoneError(tx, id));
      }
      assert RowOk(tx, id);
      var c := tx.clips[id];
      if c.version != expected {
        return tx, Err(Conflict(c));
      }
      match kind {
        case TrashOp =>
          if c.status != Active {
            return tx, Err(Conflict(c));
          }
          if skewed {
            return tx, Err(Unavailable);
          }
          tx, r := TxBump(tx, id, Trash);
        case RestoreOp =>
          if c.status != Trash {
            return tx, Err(Conflict(c));
          }
          if c.expiresAt.Some? && c.expiresAt.value <= tx.clock {
            return tx, Err(TrashExpired(c.version, c.lastSeq, c.expiresAt.value));
          }
          tx, r := TxBump(tx, id, Active);
        case PurgeOp =>
          if c.status != Trash {
            return tx, Err(Conflict(c));
          }
          tx := TxPurge(tx, id);
          r := Ok(Receipt(c.env.id, IsPurged, c.version + 1, tx.nextSeq, None, None, None));
      }
    }

    static method TxBump(tx0: Account, id: Uuid, status: Status) returns (tx: Account, r: Result<Receipt>)
      requires id in tx0.clips
      ensures tx == Bump(tx0, id, status) && r == Ok(BumpReceipt(BumpedClip(tx0, tx0.clips[id], status)))
    {
      tx := tx0.(nextSeq := tx0.nextSeq + 1);
      var seqNo, c := tx.nextSeq, tx.clips[id];
      var version := c.version + 1;
      if status == Trash {
        c := c.(status := Trash, version := version, lastSeq := seqNo,
                deletedAt := Some(tx.clock), expiresAt := Some(tx.clock + TRASH_PERIOD));
      } else {
        c := c.(status := Active, version := version, lastSeq := seqNo, deletedAt := None, expiresAt := None);
      }
      tx := tx.(clips := tx.clips[id := c]);
      var e := Event(seqNo, id, if status == Trash then Trashed else Restored, version, tx.clock);
      tx := tx.(events := tx.events[seqNo := e], log := tx.log + [e]);
      var shown := if status == Trash then IsTrash else IsActive;
      r := Ok(Receipt(c.env.id, shown, version, seqNo, None, c.deletedAt, c.expiresAt));
    }

    static method TxPurge(tx0: Account, id: Uuid) returns (tx: Account)
      requires id in tx0.clips && id in tx0.clipIds
      ensures tx == Purge(tx0, id)
    {
      var c := tx0.clips[id];
      tx := tx0.(nextSeq := tx0.nextSeq + 1, itemCount := tx0.itemCount - 1,
                 ciphertextBytes := tx0.ciphertextBytes - |c.env.ciphertext|);
      var seqNo, version := tx.nextSeq, c.version + 1;
      tx := tx.(clips := tx.clips - {id});
      tx := tx.(clipIds := tx.clipIds[id := tx.clipIds[id].(tomb := Some(Tombstone(version, seqNo, tx.clock)))]);
      var e := Event(seqNo, id, Purged, version, tx.clock);
      tx := tx.(events := tx.events[seqNo := e], log := tx.log + [e]);
    }

    method GetClip(id: Uuid) returns (r: Result<Clip>)
      requires RowsOk(db)
      ensures r == Accounts.GetClip(db, id)
    {
      if id in db.clips {
        assert RowOk(db, id);
        var c := db.clips[id];
        if c.status == Trash && c.expiresAt.Some? && c.expiresAt.value <= db.clock {
          return Err(TrashExpired(c.version, c.lastSeq, c.expiresAt.value));
        }
        return Ok(c);
      }
      if id !in db.clipIds {
        return Err(NotFound);
      }
      var tomb := db.clipIds[id].tomb;
      if tomb.Some? {
        return Err(ClipPurged(tomb.value.version, tomb.value.seqNo));
      }
      return Err(NotFound);
    }

    method ListClips(f: Filter, after: Option<PageToken>, limit: int) returns (page: ClipPage)
      requires Inv(db)
      ensures page == ListPage(db, f, after, if limit <= 0 then 100 else limit)
    {
      hide Inv, Listed, Behind, CreatedSeqs, HasClipAt, ClipAt;
      var n: nat := if limit <= 0 then PAGE else limit;
      var items, more := NewestRows(ListRows(db, f, after), n);
      DescendingIsSorted(CreatedSeqs(db, ListRows(db, f, after)));
      assert items == ListPage(db, f, after, n).items;
      return ClipPage(items, if more then Some(PageToken(items[n - 1].createdSeq, items[n - 1].env.id)) else None);
    }

    /** ORDER BY created_seq DESC LIMIT n + 1, and the row loop over the answer. */
    method NewestRows(ids: set<Uuid>, n: nat) returns (items: seq<Clip>, more: bool)
      requires Inv(db) && n > 0 && ids <= db.clips.Keys
      ensures var seqs := Descending(CreatedSeqs(db, ids));
        && |items| == Min(n, |seqs|) && more == (|seqs| > n)
        && forall i :: 0 <= i < |items| ==> HasClipAt(db, seqs[i]) && items[i] == ClipAt(db, seqs[i])
    {
      hide Inv, HasClipAt, ClipAt;
      ghost var seqs := Descending(CreatedSeqs(db, ids));
      var rows := OrderBy(CreatedSeqs(db, ids));
      DescendingIsSorted(CreatedSeqs(db, ids));
      items := [];
      while |items| < |rows| && |items| < n
        invariant |items| <= |rows| && |items| <= n
        invariant forall i :: 0 <= i < |items| ==> HasClipAt(db, seqs[i]) && items[i] == ClipAt(db, seqs[i])
      {
        var seqNo := rows[|rows| - 1 - |items|];
        assert seqs[|items|] == seqNo && seqNo in seqs;
        var id :| id in ids && db.clips[id].createdSeq == seqNo;
        CreatedSeqNamesClip(db, id);
        items := items + [db.clips[id]];
      }
      more := |rows| > n;
    }

    method Changes(epoch: Uuid, after: nat, limit: int) returns (r: Result<ChangePage>)
      ensures r == Accounts.Changes(db, epoch, after, if limit <= 0 then 100 else limit)
    {
      var n: nat := if limit <= 0 then PAGE else limit;
      var high, minAvail := db.nextSeq, db.minAvailableSeq;
      if epoch != db.epoch || after > high {
        return Err(SyncResetRequired(db.epoch));
      }
      if after + 1 < minAvail {
        return Err(CursorExpired(db.epoch, minAvail));
      }
      var events := EventRows(after, high, n);
      var next := after;
      if |events| > 0 {
        next := events[|events| - 1].seqNo;
      }
      return Ok(ChangePage(db.epoch, events, next, high, next < high));
    }

    /** The row loop of Changes. */
    method EventRows(after: nat, high: nat, limit: nat) returns (events: seq<Event>)
      ensures events == Query(db.events, after, high, limit)
    {
      events := [];
      var s := after;
      while s < high && |events| < limit
        invariant after <= s && |events| <= limit && (s <= high || s == after)
        invariant events + Query(db.events, s, high, limit - |events|) == Query(db.events, after, high, limit)
      {
        s := s + 1;
        if s in db.events {
          events := events + [db.events[s]];
        }
      }
    }

    method BeginSnapshot(device: Uuid, token: nat) returns (r: Result<Snapshot>)
      modifies this
      ensures (db, r) == Accounts.BeginSnapshot(old(db), device, token)
    {
      var tx := db;
      if token in tx.issued || device !in tx.devices {
        return Err(Unavailable);
      }
      var high, exp := tx.nextSeq, tx.clock + SNAPSHOT_PERIOD;
      tx := tx.(snapshots := tx.snapshots[token := SnapshotSession(device, high, tx.epoch, exp)],
                issued := tx.issued + {token});
      db := tx;
      return Ok(Snapshot(token, high, tx.epoch, exp));
    }

    method SnapshotPage(device: Uuid, token: nat, page: Option<Uuid>, limit: int) returns (r: Result<SnapshotPage>)
      ensures r == SnapshotRead(db, device, token, page, if limit <= 0 then 100 else limit)
    {
      var n: nat := if limit <= 0 then PAGE else limit;
      if token !in db.snapshots {
        return Err(SnapshotExpired);
      }
      var s := db.snapshots[token];
      if s.device != device {
        return Err(NotFound);
      }
      if s.epoch != db.epoch {
        return Err(SyncResetRequired(db.epoch));
      }
      if s.expiresAt <= db.clock {
        return Err(SnapshotExpired);
      }
      var after: Uuid := NIL_UUID;
      if page.Some? {
        after := page.value;
      }
      var items, next := PageRows(ScanVisible(db, s.baseSeq, after), n);
      assert items == ScanPage(db, s.baseSeq, after, n).0;
      return Ok(Domain.SnapshotPage(s.baseSeq, s.epoch, items, next));
    }

    /** ORDER BY id ASC LIMIT limit + 1, and the row loop over the answer. */
    method PageRows(s: set<Uuid>, limit: nat) returns (items: seq<Clip>, next: Option<Uuid>)
      requires limit > 0 && s <= db.clips.Keys
      ensures var ids := Ascending(s);
        && |items| == (if |ids| > limit then limit else |ids|)
        && (forall i :: 0 <= i < |items| ==> ids[i] in db.clips && items[i] == db.clips[ids[i]])
        && next == if |ids| > limit then Some(ids[limit - 1]) else None
    {
      var rows := OrderBy(s);
      AscendingIsSorted(s);
      assert forall i :: 0 <= i < |rows| ==> rows[i] in rows;
      items := [];
      while |items| < |rows| && |items| < limit
        invariant |items| <= |rows| && |items| <= limit
        invariant forall i :: 0 <= i < |items| ==> items[i] == db.clips[rows[i]]
      {
        items := items + [db.clips[rows[|items|]]];
      }
      next := None;
      if |rows| > limit {
        next := Some(rows[limit - 1]);
      }
    }

    method PurgeUserExpired() returns (n: nat)
      requires RowsOk(db)
      modifies this
      ensures db == PurgeBatch(old(db)) && n == |BatchIds(old(db))|
    {
      db, n := TxPurgeBatch(db);
    }

    static method TxPurgeBatch(tx0: Account) returns (tx: Account, n: nat)
      requires RowsOk(tx0)
      ensures tx == PurgeBatch(tx0) && n == |BatchIds(tx0)|
    {
      hide RowsOk, PurgeAll, Purge, DistinctExpired;
      tx := tx0;
      var ids := OrderByExpiry(tx.clips, Expired(tx), BATCH);
      PurgeNone(tx0, ids);
      assert DistinctExpired(tx0, ids) by { BatchIsExact(tx0); }
      n := 0;
      for i := 0 to |ids|
        invariant tx == PurgeAll(tx0, ids[..i]) && n == i
      {
        var id := ids[i];
        StillExpired(tx0, ids, i);
        if id in tx.clips && IsExpired(tx.clips[id], tx.clock) {
          tx := TxPurge(tx, id);
          n := n + 1;
        }
      }
      assert ids[..|ids|] == ids;
    }

    method RetainEvents(eventRetentionDays: int)
      modifies this
      ensures db == Retain(old(db), eventRetentionDays)
    {
      var days := eventRetentionDays;
      if days < 1 {
        days := 30;
      }
      var tx := db;
      var kept := map s | s in tx.events && tx.events[s].occurredAt >= tx.clock - days * DAY :: tx.events[s];
      assert kept == Kept(db, eventRetentionDays);
      tx := tx.(events := kept);
      if kept.Keys == {} {
        tx := tx.(minAvailableSeq := tx.nextSeq + 1);
      } else {
        var m := FindLeast(kept.Keys);
        tx := tx.(minAvailableSeq := m);
      }
      db := tx;
    }

    /** A receipt goes exactly when it can no longer be replayed; the living ones and every other table stay. */
    method CleanupReceipts()
      modifies this
      ensures db == old(db).(receipts := db.receipts)
      ensures forall op :: op in db.receipts <==> ReceiptLives(old(db), op)
      ensures forall op :: op in db.receipts ==> op in old(db).receipts && db.receipts[op] == old(db).receipts[op]
    {
      db := db.(receipts := map op | op in db.receipts && db.receipts[op].expiresAt > db.clock :: db.receipts[op]);
    }

    /** A scan session goes exactly when its pages would be refused as expired; everything else stays. */
    method CleanupSnapshots()
      modifies this
      ensures db == old(db).(snapshots := db.snapshots)
      ensures forall t :: t in db.snapshots <==> t in old(db).snapshots && old(db).snapshots[t].expiresAt > db.clock
      ensures forall t :: t in db.snapshots ==> t in old(db).snapshots && db.snapshots[t] == old(db).snapshots[t]
    {
      db := db.(snapshots := map t | t in db.snapshots && db.snapshots[t].expiresAt > db.clock :: db.snapshots[t]);
    }

    /** Another device's request, a job or the clock: one action of the environment. */
    method Perform(action: Action)
      requires Inv(db)
      modifies this
      ensures db == Step(old(db), action)
    {
      hide Inv, Accounts.CreateClip, Accounts.MutateClip, Accounts.BeginSnapshot, PurgeBatch, Retain, Revoke;
      hide CreateRequestHash, OperationRequestHash;
      assert RowsOk(db) by { InvHasRows(db); }
      match action
      case Tick(elapsed) => db := db.(clock := db.clock + elapsed);
      case Create(device, env) => var _ := CreateClip(device, env, CreateRequestHash(env));
      case Mutate(id, op, kind, expected, skewed) =>
        var _ := MutateClip(id, op, kind, expected, OperationRequestHash(kind, id, expected), skewed);
      case PurgeExpired => var _ := PurgeUserExpired();
      case RetainEvents(days) => RetainEvents(days);
      case CleanupReceipts =>
        CleanupReceipts();
        assert db.receipts == CleanReceipts(old(db)).receipts;
      case CleanupSnapshots =>
        CleanupSnapshots();
        assert db.snapshots == CleanSnapshots(old(db)).snapshots;
      case StartSnapshot(device, token) => var _ := BeginSnapshot(device, token);
      case RotateEpoch(epoch) => db := db.(epoch := epoch);
      case DropSnapshots => db := db.(snapshots := map[]);
      case EnrolDevice(device) => if device !in db.devices { db := db.(devices := db.devices[device := None]); }
      case RevokeDevice(device) => db := Revoke(db, device);
      case InitVault(vault) => if db.vault.None? { db := db.(vault := Some(vault)); }
    }

    method PerformAll(actions: seq<Action>)
      requires Inv(db)
      modifies this
      ensures db == Run(old(db), actions) && Inv(db)
    {
      for i := 0 to |actions|
        invariant db == Run(old(db), actions[..i]) && Inv(db)
      {
        assert actions[..i + 1][..i] == actions[..i];
        StepFollows(db, actions[i]);
        Perform(actions[i]);
      }
      assert actions[..|actions|] == actions;
    }
  }

  lemma PurgeNone(a: Account, ids: seq<Uuid>)
    ensures PurgeAll(a, ids[..0]) == a
  {
  }

  lemma StillExpired(a: Account, ids: seq<Uuid>, i: nat)
    requires DistinctExpired(a, ids) && i < |ids|
    ensures var b := PurgeAll(a, ids[..i]);
      && ids[i] in b.clips && ids[i] in b.clipIds && IsExpired(b.clips[ids[i]], b.clock)
      && PurgeAll(a, ids[..i + 1]) == Purge(b, ids[i])
  {
    assert DistinctExpired(a, ids[..i]);
    PurgeAllIsExact(a, ids[..i]);
    assert ids[i] !in ids[..i];
    assert ids[..i + 1][..i] == ids[..i];
  }
}
