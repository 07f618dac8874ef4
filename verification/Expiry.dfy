/** The batch an expiry job works off: the earliest expired rows first. */
module Expiry {
  import opened Domain
  import opened Accounts
  import opened Invariant

  predicate IsSoonest(clips: map<Uuid, Clip>, s: set<Uuid>, m: Uuid)
    requires s <= clips.Keys
  {
    m in s && forall x :: x in s && x != m ==> Sooner(clips, m, x)
  }

  lemma {:induction false} SoonestExists(clips: map<Uuid, Clip>, s: set<Uuid>)
    requires s <= clips.Keys && s != {}
    ensures exists m :: IsSoonest(clips, s, m)
  {
    var y :| y in s;
    var rest := s - {y};
    if rest == {} {
      forall x | x in s ensures x == y {
        assert x in rest || x == y;
      }
      assert IsSoonest(clips, s, y);
    } else {
      SoonestExists(clips, rest);
      var m :| IsSoonest(clips, rest, m);
      var z := if Sooner(clips, m, y) then m else y;
      forall x | x in s && x != z ensures Sooner(clips, z, x) {
        assert x == y || x in rest;
      }
      assert IsSoonest(clips, s, z);
    }
  }

  ghost function Soonest(clips: map<Uuid, Clip>, s: set<Uuid>): (m: Uuid)
    requires s <= clips.Keys && s != {}
    ensures IsSoonest(clips, s, m)
  {
    SoonestExists(clips, s);
    var m :| IsSoonest(clips, s, m);
    m
  }

  /** The first `n` rows of `s` in expiry order. */
  ghost function Queue(clips: map<Uuid, Clip>, s: set<Uuid>, n: nat): seq<Uuid>
    requires s <= clips.Keys
  {
    if n == 0 || s == {} then []
    else
      var m := Soonest(clips, s);
      [m] + Queue(clips, s - {m}, n - 1)
  }

  ghost function BatchIds(a: Account): seq<Uuid> {
    Queue(a.clips, Expired(a), BATCH)
  }

  ghost function PurgeBatch(a: Account): Account {
    PurgeAll(a, BatchIds(a))
  }

  /** `ids` are the first of `s` in expiry order: sorted, and before everything they leave out. */
  predicate FirstInOrder(clips: map<Uuid, Clip>, s: set<Uuid>, ids: seq<Uuid>)
    requires s <= clips.Keys
  {
    && (forall i :: 0 <= i < |ids| ==> ids[i] in s)
    && (forall i, j :: 0 <= i < j < |ids| ==> Sooner(clips, ids[i], ids[j]))
    && (forall i, x :: 0 <= i < |ids| && x in s && x !in ids ==> Sooner(clips, ids[i], x))
  }

  lemma {:induction false} QueueIsFirst(clips: map<Uuid, Clip>, s: set<Uuid>, n: nat)
    requires s <= clips.Keys
    ensures |Queue(clips, s, n)| == Min(n, |s|)
    ensures FirstInOrder(clips, s, Queue(clips, s, n))
  {
    if n > 0 && s != {} {
      var m := Soonest(clips, s);
      QueueIsFirst(clips, s - {m}, n - 1);
      ConsIsFirst(clips, s, m, Queue(clips, s - {m}, n - 1));
    }
  }

  lemma ConsIsFirst(clips: map<Uuid, Clip>, s: set<Uuid>, m: Uuid, rest: seq<Uuid>)
    requires s <= clips.Keys && IsSoonest(clips, s, m) && FirstInOrder(clips, s - {m}, rest)
    ensures FirstInOrder(clips, s, [m] + rest)
  {
    var ids := [m] + rest;
    forall i, j | 0 <= i < j < |ids| ensures Sooner(clips, ids[i], ids[j]) {
      assert ids[j] == rest[j - 1];
      assert i > 0 ==> ids[i] == rest[i - 1];
    }
    forall i, x | 0 <= i < |ids| && x in s && x !in ids ensures Sooner(clips, ids[i], x) {
      assert ids[0] == m && x !in rest;
      assert i > 0 ==> ids[i] == rest[i - 1];
    }
  }

  function PurgeEvent(a: Account, id: Uuid, k: nat): Event
    requires id in a.clips
  {
    Event(a.nextSeq + 1 + k, id, Purged, a.clips[id].version + 1, a.clock)
  }

  predicate DistinctExpired(a: Account, ids: seq<Uuid>) {
    && (forall i :: 0 <= i < |ids| ==> ids[i] in a.clips && ids[i] in a.clipIds && IsExpired(a.clips[ids[i]], a.clock))
    && (forall i, j :: 0 <= i < j < |ids| ==> ids[i] != ids[j])
  }

  function PurgeEvents(a: Account, ids: seq<Uuid>): seq<Event>
    requires DistinctExpired(a, ids)
  {
    seq(|ids|, i requires 0 <= i < |ids| => PurgeEvent(a, ids[i], i))
  }

  function BytesOf(a: Account, ids: seq<Uuid>): nat
    requires DistinctExpired(a, ids)
  {
    if |ids| == 0 then 0
    else BytesOf(a, ids[..|ids| - 1]) + |a.clips[ids[|ids| - 1]].env.ciphertext|
  }

  /** The rows of `ids` are gone; every other row is as before. */
  ghost predicate PurgedRows(a: Account, b: Account, ids: seq<Uuid>) {
    && (forall x :: x in b.clips <==> x in a.clips && x !in ids)
    && (forall x :: x in b.clips ==> b.clips[x] == a.clips[x])
  }

  function Tomb(a: Account, id: Uuid, k: nat): Option<Tombstone>
    requires id in a.clips
  {
    Some(Tombstone(a.clips[id].version + 1, a.nextSeq + 1 + k, a.clock))
  }

  /** Each of `ids` has its tombstone; every other registration is as before. */
  ghost predicate PurgedIds(a: Account, b: Account, ids: seq<Uuid>)
    requires DistinctExpired(a, ids)
  {
    && (forall x :: x in b.clipIds <==> x in a.clipIds)
    && (forall x :: x in a.clipIds && x !in ids ==> b.clipIds[x] == a.clipIds[x])
    && (forall i :: 0 <= i < |ids| ==> b.clipIds[ids[i]] == a.clipIds[ids[i]].(tomb := Tomb(a, ids[i], i)))
  }

  /** One purge event per id, numbered consecutively, and one item and its bytes given back for each. */
  ghost predicate PurgedLog(a: Account, b: Account, ids: seq<Uuid>)
    requires DistinctExpired(a, ids)
  {
    && b.clock == a.clock
    && b.nextSeq == a.nextSeq + |ids|
    && b.log == a.log + PurgeEvents(a, ids)
    && b.itemCount == a.itemCount - |ids|
    && b.ciphertextBytes == a.ciphertextBytes - BytesOf(a, ids)
  }

  ghost predicate PurgedExactly(a: Account, b: Account, ids: seq<Uuid>)
    requires DistinctExpired(a, ids)
  {
    PurgedRows(a, b, ids) && PurgedIds(a, b, ids) && PurgedLog(a, b, ids)
  }

  lemma {:induction false} PurgeAllIsExact(a: Account, ids: seq<Uuid>)
    requires DistinctExpired(a, ids)
    ensures PurgedExactly(a, PurgeAll(a, ids), ids)
  {
    if |ids| > 0 {
      var front, last := ids[..|ids| - 1], ids[|ids| - 1];
      var b := PurgeAll(a, front);
      assert ids == front + [last] && DistinctExpired(a, front);
      PurgeAllIsExact(a, front);
      assert last in b.clips && b.clips[last] == a.clips[last] && last in b.clipIds;
      PurgeNextRow(a, b, front, last);
      PurgeNextId(a, b, front, last);
      PurgeNextEvent(a, b, front, last);
    }
  }

  lemma PurgeNextRow(a: Account, b: Account, front: seq<Uuid>, last: Uuid)
    requires PurgedRows(a, b, front) && b.clock == a.clock
    requires last in b.clips && last in b.clipIds && IsExpired(b.clips[last], b.clock)
    ensures PurgedRows(a, PurgeIfExpired(b, last), front + [last])
  {
  }

  lemma PurgeNextId(a: Account, b: Account, front: seq<Uuid>, last: Uuid)
    requires DistinctExpired(a, front + [last]) && DistinctExpired(a, front)
    requires PurgedIds(a, b, front) && PurgedLog(a, b, front)
    requires last in b.clips && last in a.clips && b.clips[last] == a.clips[last] && last in b.clipIds
    ensures PurgedIds(a, PurgeIfExpired(b, last), front + [last])
  {
    var ids, c := front + [last], PurgeIfExpired(b, last);
    assert ids[|front|] == last;
    assert forall i :: 0 <= i < |front| ==> ids[i] == front[i];
    assert last !in front;
    forall i | 0 <= i < |ids| ensures c.clipIds[ids[i]] == a.clipIds[ids[i]].(tomb := Tomb(a, ids[i], i)) {
      if i < |front| {
        assert ids[i] == front[i] && front[i] in front;
      }
    }
  }

  lemma PurgeNextEvent(a: Account, b: Account, front: seq<Uuid>, last: Uuid)
    requires DistinctExpired(a, front + [last]) && DistinctExpired(a, front) && PurgedLog(a, b, front)
    requires last in b.clips && last in a.clips && b.clips[last] == a.clips[last] && last in b.clipIds
    ensures PurgedLog(a, PurgeIfExpired(b, last), front + [last])
  {
    var ids := front + [last];
    assert ids[|front|] == last && ids[..|front|] == front;
    assert PurgeEvents(a, ids) == PurgeEvents(a, front) + [PurgeEvent(a, last, |front|)];
  }

  /** One batch removes exactly the min(100, k) earliest expired clips and releases exactly their quota. */
  lemma BatchIsExact(a: Account)
    requires RowsOk(a)
    ensures |BatchIds(a)| == Min(100, |Expired(a)|)
    ensures FirstInOrder(a.clips, Expired(a), BatchIds(a))
    ensures DistinctExpired(a, BatchIds(a))
    ensures PurgedExactly(a, PurgeBatch(a), BatchIds(a))
  {
    QueueIsFirst(a.clips, Expired(a), BATCH);
    ClipsAreRegistered(a);
    PurgeAllIsExact(a, BatchIds(a));
  }

  lemma {:induction false} DistinctCount(ids: seq<Uuid>, s: set<Uuid>)
    requires forall i, j :: 0 <= i < j < |ids| ==> ids[i] != ids[j]
    requires forall i :: 0 <= i < |ids| ==> ids[i] in s
    ensures |ids| <= |s|
    ensures |ids| == |s| ==> forall x :: x in s ==> x in ids
  {
    if |ids| > 0 {
      var last := ids[|ids| - 1];
      var front := ids[..|ids| - 1];
      DistinctCount(front, s - {last});
      forall x | x in s && |ids| == |s| ensures x in ids {
        assert x != last ==> x in s - {last} && x in front;
      }
    }
  }

  /** The batch in terms of the rows: trash past its time, the earliest first, ids deciding ties, a hundred at most. */
  lemma BatchTakesEarliest(a: Account, x: Uuid, y: Uuid)
    requires RowsOk(a)
    ensures forall id :: id in Expired(a) <==>
      && id in a.clips && a.clips[id].status == Trash
      && a.clips[id].expiresAt.Some? && a.clips[id].expiresAt.value <= a.clock
    ensures forall id :: id in BatchIds(a) ==> id in Expired(a)
    ensures |BatchIds(a)| < 100 && y in Expired(a) ==> y in BatchIds(a)
    ensures x in BatchIds(a) && y in Expired(a) && y !in BatchIds(a) ==>
      || a.clips[x].expiresAt.value < a.clips[y].expiresAt.value
      || (a.clips[x].expiresAt == a.clips[y].expiresAt && x < y)
    ensures forall i, j :: 0 <= i < j < |BatchIds(a)| ==>
      var m, n := BatchIds(a)[i], BatchIds(a)[j];
      && m in a.clips && n in a.clips && a.clips[m].expiresAt.Some? && a.clips[n].expiresAt.Some?
      && (|| a.clips[m].expiresAt.value < a.clips[n].expiresAt.value
          || (a.clips[m].expiresAt == a.clips[n].expiresAt && m < n))
  {
    hide RowsOk, PurgedExactly;
    BatchIsExact(a);
    var ids := BatchIds(a);
    if |ids| < 100 {
      DistinctCount(ids, Expired(a));
    }
    forall i, j | 0 <= i < j < |ids|
      ensures Sooner(a.clips, ids[i], ids[j]) && ids[i] in Expired(a) && ids[j] in Expired(a)
    {
    }
  }
}
