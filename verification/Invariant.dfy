/** What every transaction keeps: the log is the state, retention keeps a suffix, quotas balance. */
module Invariant {
  import opened Domain
  import opened Accounts
  import opened EventLog

  // ----- the parts -----

  /** Event i carries number i + 1, and times never run backwards. */
  predicate LogOk(a: Account) {
    && a.nextSeq == |a.log|
    && Numbered(a.log)
    && (forall i :: 0 <= i < |a.log| ==> a.log[i].occurredAt <= a.clock)
    && (forall i, j :: 0 <= i < j < |a.log| ==> a.log[i].occurredAt <= a.log[j].occurredAt)
  }

  /** The retained events are exactly those numbered min_available_seq .. next_seq. */
  ghost predicate RetentionOk(a: Account)
    requires LogOk(a)
  {
    && 1 <= a.minAvailableSeq <= a.nextSeq + 1
    && (forall s :: s in a.events <==> a.minAvailableSeq <= s <= a.nextSeq)
    && (forall s :: s in a.events ==> a.events[s] == a.log[s - 1])
  }

  predicate RowOk(a: Account, id: Uuid)
    requires id in a.clips
  {
    var c := a.clips[id];
    && id in a.clipIds && a.clipIds[id].tomb == None
    && c.env.id == id
    && a.clipIds[id].createdSeq == c.createdSeq && a.clipIds[id].createdAt == c.createdAt
    && (c.status == Active ==> c.deletedAt == None && c.expiresAt == None)
    && (c.status == Trash ==> c.deletedAt.Some? && c.expiresAt == Some(c.deletedAt.value + TRASH_PERIOD))
  }

  predicate RowsOk(a: Account) {
    && (forall id :: id in a.clips ==> RowOk(a, id))
    && (forall id :: id in a.clipIds && id !in a.clips ==> a.clipIds[id].tomb.Some?)
  }

  function LifeOf(a: Account, id: Uuid): Life
    requires id in a.clipIds
  {
    var reg := a.clipIds[id];
    if id in a.clips then
      var c := a.clips[id];
      Life(if c.status == Active then Live else Binned, c.version, c.createdSeq, c.lastSeq, c.expiresAt)
    else if reg.tomb.Some? then Life(Gone, reg.tomb.value.version, reg.createdSeq, reg.tomb.value.seqNo, None)
    else Life(Gone, 0, reg.createdSeq, 0, None)
  }

  function View(a: Account): Lives {
    map id | id in a.clipIds :: LifeOf(a, id)
  }

  /** Replaying the whole history gives every clip's status, version, last_seq and expiry. */
  predicate LogIsState(a: Account) {
    Replay(a.log) == Some(View(a))
  }

  ghost function SomeId(clips: map<Uuid, Clip>): (id: Uuid)
    requires |clips| > 0
    ensures id in clips
  {
    var id :| id in clips;
    id
  }

  ghost function SumBytes(clips: map<Uuid, Clip>): nat {
    if |clips| == 0 then 0
    else
      var id := SomeId(clips);
      |clips[id].env.ciphertext| + SumBytes(clips - {id})
  }

  ghost predicate QuotaOk(a: Account) {
    && a.itemCount == |a.clips| <= a.cfg.maxItems
    && a.ciphertextBytes == SumBytes(a.clips) <= a.cfg.maxCiphertextBytes
  }

  /** Scan tokens are known once handed out, and start no later than the present. */
  predicate SnapshotsOk(a: Account) {
    forall t :: t in a.snapshots ==> t in a.issued && a.snapshots[t].baseSeq <= a.nextSeq
  }

  ghost predicate Inv(a: Account) {
    LogOk(a) && RetentionOk(a) && RowsOk(a) && LogIsState(a) && QuotaOk(a) && SnapshotsOk(a)
  }

  lemma InvHasRows(a: Account)
    requires Inv(a)
    ensures RowsOk(a)
  {
  }

  // ----- sums over rows -----

  lemma {:induction false} SumWithout(clips: map<Uuid, Clip>, id: Uuid)
    requires id in clips
    ensures SumBytes(clips) == |clips[id].env.ciphertext| + SumBytes(clips - {id})
    decreases |clips|
  {
    var x := SomeId(clips);
    if x != id {
      SumWithout(clips - {x}, id);
      SumWithout(clips - {id}, x);
      assert clips - {x} - {id} == clips - {id} - {x};
    }
  }

  lemma SumWith(clips: map<Uuid, Clip>, id: Uuid, c: Clip)
    ensures SumBytes(clips[id := c]) == |c.env.ciphertext| + SumBytes(clips - {id})
    ensures id !in clips ==> SumBytes(clips[id := c]) == |c.env.ciphertext| + SumBytes(clips)
  {
    var after := clips[id := c];
    SumWithout(after, id);
    assert after - {id} == clips - {id};
    if id !in clips {
      assert clips - {id} == clips;
    }
  }

  // ----- the three writes keep the parts -----

  ghost predicate SameElsewhere(a: Account, b: Account, id: Uuid) {
    && (forall x :: x != id ==> (x in a.clips <==> x in b.clips) && (x in a.clipIds <==> x in b.clipIds))
    && (forall x :: x != id && x in a.clips ==> a.clips[x] == b.clips[x])
    && (forall x :: x != id && x in a.clipIds ==> a.clipIds[x] == b.clipIds[x])
  }

  /** A transaction that writes neither rows nor log keeps all that is said about them. */
  lemma SameRowsStayOk(a: Account, b: Account)
    requires RowsOk(a) && LogIsState(a) && QuotaOk(a)
    requires b.clips == a.clips && b.clipIds == a.clipIds && b.log == a.log && b.cfg == a.cfg
    requires b.itemCount == a.itemCount && b.ciphertextBytes == a.ciphertextBytes
    ensures RowsOk(b) && LogIsState(b) && QuotaOk(b)
  {
    forall id | id in b.clips ensures RowOk(b, id) {
      assert RowOk(a, id);
    }
    assert View(b) == View(a);
  }

  lemma AppendKeepsLog(a: Account, b: Account, e: Event)
    requires LogOk(a) && RetentionOk(a) && e.seqNo == a.nextSeq + 1 && e.occurredAt == a.clock
    requires b.nextSeq == e.seqNo && b.events == a.events[e.seqNo := e] && b.log == a.log + [e]
    requires b.clock == a.clock && b.minAvailableSeq == a.minAvailableSeq
    ensures LogOk(b) && RetentionOk(b)
  {
  }

  lemma WriteKeepsRows(a: Account, b: Account, id: Uuid)
    requires RowsOk(a) && SameElsewhere(a, b, id)
    requires if id in b.clips then RowOk(b, id) else id in b.clipIds ==> b.clipIds[id].tomb.Some?
    ensures RowsOk(b)
  {
    forall x | x in b.clips ensures RowOk(b, x) {
      if x != id {
        assert RowOk(a, x);
      }
    }
  }

  lemma WriteKeepsView(a: Account, b: Account, e: Event)
    requires LogIsState(a) && SameElsewhere(a, b, e.clipId) && b.log == a.log + [e]
    requires e.clipId in b.clipIds
    requires Apply(View(a), e) == Some(View(a)[e.clipId := LifeOf(b, e.clipId)])
    ensures LogIsState(b)
  {
    ReplayAppend(a.log, e);
    var v, w := View(a)[e.clipId := LifeOf(b, e.clipId)], View(b);
    forall x | x in w ensures x in v && v[x] == w[x] {
      if x != e.clipId {
        assert x in a.clipIds && LifeOf(a, x) == LifeOf(b, x);
      }
    }
    assert v == w;
  }

  lemma ClipsAreRegistered(a: Account)
    requires RowsOk(a)
    ensures a.clips.Keys <= a.clipIds.Keys
  {
    forall id | id in a.clips ensures id in a.clipIds {
      assert RowOk(a, id);
    }
  }

  lemma InsertKeepsRows(a: Account, env: Envelope, hash: Digest)
    requires RowsOk(a) && LogIsState(a) && env.id !in a.clipIds
    ensures RowsOk(Insert(a, env, hash)) && LogIsState(Insert(a, env, hash))
  {
    var b, e := Insert(a, env, hash), NewEvent(a, env.id, Created, 1);
    assert RowsOk(b) by { WriteKeepsRows(a, b, env.id); }
    assert LogIsState(b) by { WriteKeepsView(a, b, e); }
  }

  lemma InsertKeepsQuota(a: Account, env: Envelope, hash: Digest)
    requires QuotaOk(a) && env.id !in a.clips && WithinQuota(a, env)
    ensures QuotaOk(Insert(a, env, hash))
  {
    SumWith(a.clips, env.id, InsertedClip(a, env));
  }

  lemma InsertKeepsInv(a: Account, env: Envelope, hash: Digest)
    requires Inv(a) && env.id !in a.clipIds && WithinQuota(a, env)
    ensures Inv(Insert(a, env, hash))
  {
    var b := Insert(a, env, hash);
    ClipsAreRegistered(a);
    assert LogOk(b) && RetentionOk(b) by { AppendKeepsLog(a, b, NewEvent(a, env.id, Created, 1)); }
    InsertKeepsRows(a, env, hash);
    InsertKeepsQuota(a, env, hash);
  }

  function BumpEvent(a: Account, id: Uuid, status: Status): Event
    requires id in a.clips
  {
    NewEvent(a, id, if status == Trash then Trashed else Restored, a.clips[id].version + 1)
  }

  lemma BumpKeepsRows(a: Account, id: Uuid, status: Status)
    requires RowsOk(a) && id in a.clips
    ensures RowsOk(Bump(a, id, status))
  {
    assert RowOk(a, id);
    WriteKeepsRows(a, Bump(a, id, status), id);
  }

  lemma BumpAdvances(a: Account, id: Uuid, status: Status)
    requires RowsOk(a) && id in a.clips && a.clips[id].status != status
    requires status == Active ==> !IsExpired(a.clips[id], a.clock)
    ensures id in a.clipIds
    ensures Advance(LifeOf(a, id), BumpEvent(a, id, status)) == Some(LifeOf(Bump(a, id, status), id))
  {
    assert RowOk(a, id);
  }

  lemma BumpKeepsView(a: Account, id: Uuid, status: Status)
    requires RowsOk(a) && LogIsState(a) && id in a.clips && a.clips[id].status != status
    requires status == Active ==> !IsExpired(a.clips[id], a.clock)
    ensures LogIsState(Bump(a, id, status))
  {
    BumpAdvances(a, id, status);
    WriteKeepsView(a, Bump(a, id, status), BumpEvent(a, id, status));
  }

  /** Trash and restore leave both quota counters alone. */
  lemma BumpKeepsQuota(a: Account, id: Uuid, status: Status)
    requires QuotaOk(a) && id in a.clips
    ensures QuotaOk(Bump(a, id, status))
    ensures Bump(a, id, status).itemCount == a.itemCount
    ensures Bump(a, id, status).ciphertextBytes == a.ciphertextBytes
  {
    SumWith(a.clips, id, BumpedClip(a, a.clips[id], status));
    SumWithout(a.clips, id);
    assert a.clips[id := BumpedClip(a, a.clips[id], status)].Keys == a.clips.Keys;
  }

  lemma BumpKeepsInv(a: Account, id: Uuid, status: Status)
    requires Inv(a) && id in a.clips && a.clips[id].status != status
    requires status == Active ==> !IsExpired(a.clips[id], a.clock)
    ensures Inv(Bump(a, id, status))
  {
    var b := Bump(a, id, status);
    assert LogOk(b) && RetentionOk(b) by { AppendKeepsLog(a, b, BumpEvent(a, id, status)); }
    BumpKeepsRows(a, id, status);
    BumpKeepsView(a, id, status);
    BumpKeepsQuota(a, id, status);
  }

  lemma PurgeKeepsRows(a: Account, id: Uuid)
    requires RowsOk(a) && LogIsState(a) && id in a.clips && id in a.clipIds && a.clips[id].status == Trash
    ensures RowsOk(Purge(a, id)) && LogIsState(Purge(a, id))
  {
    var b, e := Purge(a, id), NewEvent(a, id, Purged, a.clips[id].version + 1);
    assert RowOk(a, id);
    assert RowsOk(b) by { WriteKeepsRows(a, b, id); }
    assert LogIsState(b) by { WriteKeepsView(a, b, e); }
  }

  /** A purge gives back one item and exactly the clip's ciphertext length. */
  lemma PurgeKeepsQuota(a: Account, id: Uuid)
    requires QuotaOk(a) && id in a.clips && id in a.clipIds
    ensures QuotaOk(Purge(a, id))
  {
    SumWithout(a.clips, id);
    assert (a.clips - {id}).Keys == a.clips.Keys - {id};
  }

  lemma PurgeKeepsInv(a: Account, id: Uuid)
    requires Inv(a) && id in a.clips && id in a.clipIds && a.clips[id].status == Trash
    ensures Inv(Purge(a, id))
  {
    var b := Purge(a, id);
    assert LogOk(b) && RetentionOk(b) by {
      AppendKeepsLog(a, b, NewEvent(a, id, Purged, a.clips[id].version + 1));
    }
    PurgeKeepsRows(a, id);
    PurgeKeepsQuota(a, id);
  }
}
