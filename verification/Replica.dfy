/** What a device's cache owes the server, as a relation between values, and what keeps it. */
module Replica {
  import opened Domain
  import opened Ordered
  import opened Accounts
  import opened EventLog
  import opened Invariant
  import opened Evolution
  import opened Runs

  /** What the local history keeps of a clip. */
  datatype Item = Item(status: Status, version: nat, createdSeq: nat, expiresAt: Option<Time>)

  type Cache = map<Uuid, Item>

  function ItemOf(c: Clip): Item {
    Item(c.status, c.version, c.createdSeq, c.expiresAt)
  }

  /**
   * A cursor vouches for every clip whose last event it has passed. A scan asks for ids above the
   * nil UUID, so for a clip with that very id only events after the scan's base count.
   */
  predicate Owed(c: Clip, cursor: nat, base: nat) {
    c.lastSeq <= cursor && (c.env.id == NIL_UUID ==> base < c.lastSeq)
  }

  predicate Agrees(a: Account, cache: Cache, id: Uuid)
    requires id in a.clips
  {
    id in cache && cache[id] == ItemOf(a.clips[id])
  }

  /** Everything owed is cached exactly as the server has it now. */
  ghost predicate Synced(a: Account, cache: Cache, cursor: nat, base: nat) {
    forall id :: Visible(a, id) && Owed(a.clips[id], cursor, base) ==> Agrees(a, cache, id)
  }

  /** No event of the clip is numbered above k. */
  predicate Passed(a: Account, k: nat, id: Uuid) {
    id in a.clipIds && LifeOf(a, id).lastSeq <= k
  }

  /** The cursor has passed the clip's last event, and the cached entry is still not what the server has. */
  predicate Stale(a: Account, cache: Cache, cursor: nat, id: Uuid) {
    id in cache && Passed(a, cursor, id) && (id in a.clips ==> cache[id] != ItemOf(a.clips[id]))
  }

  /** From time t on no scan returns the clip: it is purged, or expired trash, or has the nil UUID. */
  predicate Hidden(a: Account, t: Time, id: Uuid) {
    id in a.clips ==> IsExpired(a.clips[id], t) || id == NIL_UUID
  }

  /** The cache holds a stale entry that at time t neither an event ahead nor a scan would correct. */
  ghost predicate Dirty(a: Account, t: Time, cache: Cache, cursor: nat) {
    exists id :: Stale(a, cache, cursor, id) && Hidden(a, t, id)
  }

  /** Whatever is cached and not awaiting upload is known to the server and not stale. */
  predicate NoStale(a: Account, cache: Cache, cursor: nat, pending: set<Uuid>) {
    forall id :: id in cache && id !in pending ==> id in a.clipIds && !Stale(a, cache, cursor, id)
  }

  /** What is cached came from the server or awaits upload. */
  predicate Known(a: Account, cache: Cache, pending: set<Uuid>) {
    forall id :: id in cache ==> id in pending || id in a.clipIds
  }

  /** What awaits upload is unknown to the server, or was registered after the cursor. */
  predicate Ahead(a: Account, pending: set<Uuid>, cursor: nat) {
    forall id :: id in pending && id in a.clipIds ==> cursor < a.clipIds[id].createdSeq
  }

  /** What the cursor vouches for is shown with the status, version, number and expiry the server has for it. */
  lemma SyncedShows(a: Account, cache: Cache, cursor: nat, base: nat, id: Uuid)
    requires Synced(a, cache, cursor, base)
    requires id in a.clips && a.clips[id].env.id == id && a.clips[id].lastSeq <= cursor
    requires a.clips[id].status == Trash && a.clips[id].expiresAt.Some? ==> a.clock < a.clips[id].expiresAt.value
    requires id == NIL_UUID ==> base < a.clips[id].lastSeq
    ensures
      var c := a.clips[id];
      && id in cache && cache[id].status == c.status && cache[id].version == c.version
      && cache[id].createdSeq == c.createdSeq && cache[id].expiresAt == c.expiresAt
  {
    assert Visible(a, id) && Owed(a.clips[id], cursor, base);
  }

  /** An entry is stale exactly when it shows something else than the row, or the row is gone. */
  lemma StaleShows(a: Account, cache: Cache, cursor: nat, id: Uuid)
    ensures Stale(a, cache, cursor, id) <==>
      && id in cache && Passed(a, cursor, id)
      && (id in a.clips ==>
            var c := a.clips[id];
            || cache[id].status != c.status || cache[id].version != c.version
            || cache[id].createdSeq != c.createdSeq || cache[id].expiresAt != c.expiresAt)
  {
  }

  // ----- other devices' transactions -----

  lemma SyncedPersists(a: Account, b: Account, cache: Cache, cursor: nat, base: nat)
    requires Inv(a) && Follows(a, b) && cursor <= a.nextSeq && Synced(a, cache, cursor, base)
    ensures Synced(b, cache, cursor, base)
  {
    forall id | Visible(b, id) && Owed(b.clips[id], cursor, base) ensures Agrees(b, cache, id) {
      assert IdEvolves(a, b, id);
      assert Visible(a, id);
    }
  }

  /** What lies behind a number that was given out before has not changed since. */
  lemma PassedBefore(a: Account, b: Account, k: nat, id: Uuid)
    requires Inv(a) && Follows(a, b) && k <= a.nextSeq && Passed(b, k, id)
    ensures id in a.clipIds && LifeOf(a, id).lastSeq == LifeOf(b, id).lastSeq
    ensures id in a.clips <==> id in b.clips
    ensures id in a.clips ==> a.clips[id] == b.clips[id]
  {
    hide LogOk, RetentionOk, LogIsState, QuotaOk, SnapshotsOk;
    assert IdEvolves(a, b, id);
    RowsBounded(b);
    assert id in a.clips ==> RowOk(a, id);
    assert id in b.clips ==> RowOk(b, id);
  }

  lemma NoStalePersists(a: Account, b: Account, cache: Cache, cursor: nat, pending: set<Uuid>)
    requires Inv(a) && Follows(a, b) && cursor <= a.nextSeq && NoStale(a, cache, cursor, pending)
    ensures NoStale(b, cache, cursor, pending)
  {
    hide Inv, LifeOf;
    forall id | id in cache && id !in pending ensures id in b.clipIds && !Stale(b, cache, cursor, id) {
      assert IdEvolves(a, b, id);
      if Passed(b, cursor, id) {
        PassedBefore(a, b, cursor, id);
        assert !Stale(a, cache, cursor, id);
      }
    }
  }

  lemma AheadPersists(a: Account, b: Account, pending: set<Uuid>, cursor: nat)
    requires Follows(a, b) && cursor <= a.nextSeq && Ahead(a, pending, cursor)
    ensures Ahead(b, pending, cursor)
  {
    forall id | id in pending && id in b.clipIds ensures cursor < b.clipIds[id].createdSeq {
      assert IdEvolves(a, b, id);
    }
  }

  lemma KnownPersists(a: Account, b: Account, cache: Cache, pending: set<Uuid>)
    requires Follows(a, b) && Known(a, cache, pending)
    ensures Known(b, cache, pending)
  {
    forall id | id in cache ensures id in pending || id in b.clipIds {
      assert IdEvolves(a, b, id);
    }
  }

  /** A cursor that stays behind vouches for less. */
  lemma LowerCursor(a: Account, cache: Cache, high: nat, low: nat, base: nat)
    requires low <= high
    ensures Synced(a, cache, high, base) ==> Synced(a, cache, low, base)
  {
  }

  // ----- one event of a page -----

  /** The cache after fetching a clip: its current row, or nothing if it is purged or expired. */
  function Fetched(a: Account, cache: Cache, id: Uuid): Cache {
    match GetClip(a, id)
    case Ok(c) => cache[id := ItemOf(c)]
    case Err(_) => cache - {id}
  }

  /** A clip named in the log is never answered with NOT_FOUND. */
  lemma LoggedClipIsKnown(a: Account, k: nat)
    requires Inv(a) && k < |a.log|
    ensures a.log[k].clipId in a.clipIds
    ensures GetClip(a, a.log[k].clipId).Err? ==>
      GetClip(a, a.log[k].clipId).error.ClipPurged? || GetClip(a, a.log[k].clipId).error.TrashExpired?
  {
    var id := a.log[k].clipId;
    LifeSummarises(a.log, id);
    EventCounted(a.log, k);
    assert id in View(a);
  }

  lemma {:induction false} EventCounted(log: seq<Event>, k: nat)
    requires k < |log|
    ensures EventsOf(log, log[k].clipId) > 0
    decreases |log|
  {
    if k < |log| - 1 {
      EventCounted(log[..|log| - 1], k);
    }
  }

  /** Only the clip named by event k can have its last event there. */
  lemma LastEventNamesClip(a: Account, id: Uuid)
    requires Inv(a) && id in a.clipIds
    ensures 1 <= LifeOf(a, id).lastSeq <= |a.log| && a.log[LifeOf(a, id).lastSeq - 1].clipId == id
  {
    hide RetentionOk, RowsOk, QuotaOk, SnapshotsOk;
    LifeSummarises(a.log, id);
    assert View(a)[id] == LifeOf(a, id);
  }

  /** Fetching the clip of the next event moves the effective cursor over that event. */
  lemma FetchAdvances(a: Account, cache: Cache, k: nat, base: nat)
    requires Inv(a) && k < |a.log| && Synced(a, cache, k, base)
    ensures Synced(a, Fetched(a, cache, a.log[k].clipId), k + 1, base)
  {
    var e := a.log[k].clipId;
    forall id | Visible(a, id) && Owed(a.clips[id], k + 1, base)
      ensures Agrees(a, Fetched(a, cache, e), id)
    {
      assert RowOk(a, id);
      if id != e {
        LastEventNamesClip(a, id);
        assert Owed(a.clips[id], k, base);
      }
    }
  }

  /** Event k was on a page of state `a`; its clip is fetched in a later state `b`. */
  lemma FetchLater(a: Account, b: Account, cache: Cache, k: nat, base: nat, id: Uuid)
    requires Inv(a) && Follows(a, b) && k < |a.log| && a.log[k].clipId == id && Synced(a, cache, k, base)
    ensures Synced(b, cache, k, base) && Synced(b, Fetched(b, cache, id), k + 1, base)
    ensures GetClip(b, id).Ok? || GetClip(b, id).error.ClipPurged? || GetClip(b, id).error.TrashExpired?
    ensures GetClip(b, id).Ok? ==> GetClip(b, id).value.env.id == id
  {
    SyncedPersists(a, b, cache, k, base);
    assert b.log[k] == a.log[k];
    FetchAdvances(b, cache, k, base);
    LoggedClipIsKnown(b, k);
    assert id in b.clips ==> RowOk(b, id);
  }

  lemma FetchLaterKeepsKnown(a: Account, b: Account, cache: Cache, id: Uuid)
    requires Follows(a, b) && Known(a, cache, {})
    ensures Known(b, cache, {}) && Known(b, Fetched(b, cache, id), {})
  {
    hide LogOk, RetentionOk, LogIsState, QuotaOk, SnapshotsOk;
    KnownPersists(a, b, cache, {});
    assert id in b.clips ==> RowOk(b, id);
  }

  // ----- what becomes of stale entries -----

  /** What is hidden and has no event ahead is left in the cache as it was. */
  ghost predicate LeftAlone(b: Account, t: Time, cache: Cache, k: nat, after: Cache) {
    forall id :: id in cache && Passed(b, k, id) && Hidden(b, t, id) ==> id in after && after[id] == cache[id]
  }

  /** No entry has become stale. */
  ghost predicate NoneNew(b: Account, cache: Cache, k: nat, after: Cache, m: nat) {
    forall id :: Stale(b, after, m, id) ==> Stale(b, cache, k, id)
  }

  /** From `cache` at cursor k and time t to `after` at cursor m, both seen from the later state b. */
  ghost predicate Carried(b: Account, t: Time, cache: Cache, k: nat, after: Cache, m: nat) {
    LeftAlone(b, t, cache, k, after) && NoneNew(b, cache, k, after, m)
  }

  lemma CarriedHere(a: Account, t: Time, cache: Cache, k: nat)
    ensures Carried(a, t, cache, k, cache, k)
  {
  }

  lemma LeftAlonePersists(a: Account, b: Account, t: Time, cache: Cache, k: nat, after: Cache)
    requires Inv(a) && Follows(a, b) && k <= a.nextSeq && LeftAlone(a, t, cache, k, after)
    ensures LeftAlone(b, t, cache, k, after)
  {
    hide Inv, Evolves, LifeOf;
    forall id | id in cache && Passed(b, k, id) && Hidden(b, t, id) ensures id in after && after[id] == cache[id] {
      PassedBefore(a, b, k, id);
      assert Passed(a, k, id) && Hidden(a, t, id);
    }
  }

  lemma CarriedPersists(a: Account, b: Account, t: Time, cache: Cache, k: nat, after: Cache, m: nat)
    requires Inv(a) && Follows(a, b) && k <= a.nextSeq && m <= a.nextSeq && Carried(a, t, cache, k, after, m)
    ensures Carried(b, t, cache, k, after, m)
  {
    hide Inv, Evolves, LifeOf;
    LeftAlonePersists(a, b, t, cache, k, after);
    forall id | Stale(b, after, m, id) ensures Stale(b, cache, k, id) {
      PassedBefore(a, b, m, id);
      assert Stale(a, after, m, id);
      assert Stale(a, cache, k, id);
    }
  }

  /** One step leaves alone what the steps before it have left alone. */
  lemma LeaveAlone(a: Account, t: Time, cache: Cache, k: nat, held: Cache, b: Account, u: Time, m: nat, after: Cache)
    requires Inv(a) && Follows(a, b) && k <= a.nextSeq && t <= u && k <= m
    requires LeftAlone(a, t, cache, k, held) && LeftAlone(b, u, held, m, after)
    ensures LeftAlone(b, t, cache, k, after)
  {
    hide Inv, Evolves, LifeOf;
    LeftAlonePersists(a, b, t, cache, k, held);
  }

  lemma CarryOn(a: Account, t: Time, cache: Cache, k: nat, held: Cache, m: nat, b: Account, after: Cache, n: nat)
    requires Inv(a) && Follows(a, b) && t <= a.clock && k <= m <= a.nextSeq
    requires Carried(a, t, cache, k, held, m) && Carried(b, a.clock, held, m, after, n)
    ensures Carried(b, t, cache, k, after, n)
  {
    hide Inv, Evolves, LifeOf, LeftAlone, Stale;
    CarriedPersists(a, b, t, cache, k, held, m);
    LeaveAlone(a, t, cache, k, held, b, a.clock, m, after);
  }

  lemma LowerCarried(b: Account, t: Time, cache: Cache, k: nat, after: Cache, m: nat, low: nat)
    requires Carried(b, t, cache, k, after, m) && low <= m
    ensures Carried(b, t, cache, k, after, low)
  {
    forall id | Stale(b, after, low, id) ensures Stale(b, cache, k, id) {
      assert Stale(b, after, m, id);
    }
  }

  lemma CarriedStaysClean(a: Account, b: Account, t: Time, cache: Cache, k: nat, after: Cache, m: nat)
    requires Inv(a) && Follows(a, b) && k <= a.nextSeq && NoStale(a, cache, k, {})
    requires Carried(b, t, cache, k, after, m) && Known(b, after, {})
    ensures NoStale(b, after, m, {})
  {
    hide Inv, Evolves, LifeOf, Passed;
    NoStalePersists(a, b, cache, k, {});
  }

  /** Fetching the clip of the next event resolves that clip and leaves hidden ones alone. */
  lemma FetchCarries(a: Account, t: Time, cache: Cache, k: nat)
    requires Inv(a) && k < |a.log| && t <= a.clock
    ensures Carried(a, t, cache, k, Fetched(a, cache, a.log[k].clipId), k + 1)
  {
    hide RetentionOk, QuotaOk, SnapshotsOk;
    var e := a.log[k].clipId;
    var after := Fetched(a, cache, e);
    assert e in a.clips ==> RowOk(a, e);
    forall id | Stale(a, after, k + 1, id) ensures Stale(a, cache, k, id) {
      LastEventNamesClip(a, id);
      assert id != e;
    }
    forall id | id in cache && Passed(a, k, id) ensures id != e {
      NoEventAfterLast(a, id, k);
    }
  }

  lemma NoEventAfterLast(a: Account, id: Uuid, k: nat)
    requires Inv(a) && Passed(a, k, id) && k < |a.log|
    ensures a.log[k].clipId != id
  {
    hide RetentionOk, RowsOk, QuotaOk, SnapshotsOk;
    LifeSummarises(a.log, id);
    assert View(a)[id] == LifeOf(a, id);
  }

  /** Event k was on a page of state `a`; its clip is fetched in the later state `b`. */
  lemma FetchLaterCarries(a: Account, b: Account, cache: Cache, k: nat, id: Uuid)
    requires Inv(a) && Follows(a, b) && k < |a.log| && a.log[k].clipId == id
    ensures Carried(b, a.clock, cache, k, cache, k)
    ensures Carried(b, a.clock, cache, k, Fetched(b, cache, id), k + 1)
  {
    hide Inv, Carried, Fetched;
    CarriedHere(b, a.clock, cache, k);
    assert b.log[k] == a.log[k];
    FetchCarries(b, a.clock, cache, k);
  }

  /** So does storing a page of a scan. */
  lemma PageCarries(a: Account, t: Time, cache: Cache, k: nat, base: nat, after: Uuid)
    requires Inv(a) && t <= a.clock
    ensures Carried(a, t, cache, k, StoreAll(cache, ScanPage(a, base, after, PAGE).0), k)
  {
    hide Inv, Passed, Hidden, StoreAll, ScanPage, ScanVisible;
    InvHasRows(a);
    PageContents(a, base, after, PAGE);
    var items := ScanPage(a, base, after, PAGE).0;
    var stored := StoreAll(cache, items);
    forall i | 0 <= i < |items| ensures items[i].env.id in a.clips {
      VisibleIsRow(a, base, after, items[i].env.id);
    }
    StoredRows(a, cache, items);
    forall id | id in cache && Hidden(a, t, id) ensures id in stored && stored[id] == cache[id] {
      HiddenIsNotScanned(a, t, base, after, id);
    }
    forall id | Stale(a, stored, k, id) ensures Stale(a, cache, k, id) {
      assert id in a.clips ==> !Agrees(a, stored, id);
    }
  }

  lemma HiddenIsNotScanned(a: Account, t: Time, base: nat, after: Uuid, id: Uuid)
    requires t <= a.clock && Hidden(a, t, id)
    ensures id !in ScanVisible(a, base, after)
  {
  }

  /** What the cursor vouches for is right unless it is hidden. */
  lemma StaleIsHidden(a: Account, cache: Cache, cursor: nat, base: nat, id: Uuid)
    requires RowsOk(a) && Synced(a, cache, cursor, base) && Stale(a, cache, cursor, id)
    ensures Hidden(a, a.clock, id)
  {
    assert id in a.clips ==> RowOk(a, id);
  }

  /** With nothing awaiting upload, a cache that owes nothing is right exactly when no hidden entry is stale. */
  lemma StaleIffDirty(a: Account, cache: Cache, cursor: nat, base: nat)
    requires RowsOk(a) && Known(a, cache, {}) && Synced(a, cache, cursor, base)
    ensures NoStale(a, cache, cursor, {}) <==> !Dirty(a, a.clock, cache, cursor)
  {
    hide RowsOk, Synced, Passed, Hidden;
    if id :| Stale(a, cache, cursor, id) {
      StaleIsHidden(a, cache, cursor, base, id);
    }
  }

  /**
   * What a pull or a rebuild that began in state m with cache `start` and vouched from k on comes to in state b.
   * An entry that was hidden and stale when it began stays, unless its clip is purged meanwhile; an entry that is
   * stale in the end was in the cache from the beginning, and its clip is hidden by now. If no time passes and
   * nothing is purged meanwhile, the two conditions meet in one that can be checked at the beginning.
   */
  ghost predicate Verdict(m: Account, start: Cache, k: nat, b: Account, clean: bool) {
    && (Dirty(b, m.clock, start, k) ==> !clean)
    && (!Dirty(b, b.clock, start, k) ==> clean)
    && (Still(m, b) ==> (clean <==> !Dirty(m, m.clock, start, k)))
  }

  lemma VerdictHolds(m: Account, start: Cache, k: nat, b: Account, cache: Cache, cursor: nat, base: nat)
    requires Inv(m) && Follows(m, b) && k <= m.nextSeq && k <= cursor
    requires Synced(b, cache, cursor, base) && Known(b, cache, {}) && Carried(b, m.clock, start, k, cache, cursor)
    ensures Verdict(m, start, k, b, NoStale(b, cache, cursor, {}))
  {
    hide Inv, Evolves, Synced, Known, NoStale, LifeOf, Hidden;
    InvHasRows(b);
    StaleIffDirty(b, cache, cursor, base);
    if id :| Stale(b, start, k, id) && Hidden(b, m.clock, id) {
      assert Stale(b, cache, cursor, id);
      StaleIsHidden(b, cache, cursor, base, id);
    }
    if id :| Stale(b, cache, cursor, id) && Hidden(b, b.clock, id) {
      assert Stale(b, start, k, id);
    }
    if Still(m, b) {
      StillIsDirty(m, b, start, k);
    }
  }

  /** With the clock and the hidden rows standing still, nothing about stale hidden entries changes. */
  lemma StillIsStale(m: Account, b: Account, start: Cache, k: nat, id: Uuid)
    requires Inv(m) && Follows(m, b) && k <= m.nextSeq && Still(m, b)
    ensures Stale(m, start, k, id) && Hidden(m, m.clock, id) <==> Stale(b, start, k, id) && Hidden(b, b.clock, id)
  {
    hide LogOk, RetentionOk, LogIsState, QuotaOk, SnapshotsOk;
    assert IdEvolves(m, b, id);
    if Passed(b, k, id) {
      PassedBefore(m, b, k, id);
    }
    assert id in m.clips ==> RowOk(m, id);
    assert id in b.clips ==> RowOk(b, id);
  }

  lemma StillIsDirty(m: Account, b: Account, start: Cache, k: nat)
    requires Inv(m) && Follows(m, b) && k <= m.nextSeq && Still(m, b)
    ensures Dirty(m, m.clock, start, k) <==> Dirty(b, b.clock, start, k)
  {
    hide Inv, Follows, Still, Stale, Hidden;
    forall id ensures Stale(m, start, k, id) && Hidden(m, m.clock, id) <==>
        Stale(b, start, k, id) && Hidden(b, b.clock, id)
    {
      StillIsStale(m, b, start, k, id);
    }
  }

  /**
   * Between beginning and end the two conditions do differ: an entry that is merely behind when a scan begins is
   * stuck once its clip expires before its page is read, and a stuck one is resolved when its clip is purged.
   */
  lemma MeanwhileDecides(a: Account, id: Uuid, item: Item)
    requires Inv(a) && id in a.clips && a.clips[id].status == Trash && id != NIL_UUID && item != ItemOf(a.clips[id])
    ensures id in a.clipIds
    ensures
      var k, cache := a.nextSeq, map[id := item];
      var later, purged := Step(a, Tick(ExpiryOf(a.clips[id]))), Purge(a, id);
      && (Dirty(a, a.clock, cache, k) <==> IsExpired(a.clips[id], a.clock))
      && Dirty(later, later.clock, cache, k)
      && !Dirty(purged, purged.clock, cache, k)
  {
    hide LogOk, RetentionOk, LogIsState, QuotaOk, SnapshotsOk;
    RowsBounded(a);
    assert RowOk(a, id);
    var cache, later := map[id := item], Step(a, Tick(ExpiryOf(a.clips[id])));
    assert Stale(a, cache, a.nextSeq, id);
    assert later.clips == a.clips && Stale(later, cache, a.nextSeq, id) && Hidden(later, later.clock, id);
    assert !Stale(Purge(a, id), cache, a.nextSeq, id);
  }

  lemma EmptyIsClean(a: Account, t: Time, k: nat)
    ensures !Dirty(a, t, map[], k)
  {
  }

  // ----- snapshot scan -----

  /** The scan has brought every clip up to `upTo` that no event after `base` has touched. */
  ghost predicate Scanned(a: Account, cache: Cache, base: nat, upTo: Uuid) {
    forall id: Uuid :: Visible(a, id) && NIL_UUID < id <= upTo && a.clips[id].lastSeq <= base ==> Agrees(a, cache, id)
  }

  lemma ScannedPersists(a: Account, b: Account, cache: Cache, base: nat, upTo: Uuid)
    requires Inv(a) && Follows(a, b) && base <= a.nextSeq && Scanned(a, cache, base, upTo)
    ensures Scanned(b, cache, base, upTo)
  {
    forall id: Uuid | Visible(b, id) && NIL_UUID < id <= upTo && b.clips[id].lastSeq <= base
      ensures Agrees(b, cache, id)
    {
      assert IdEvolves(a, b, id);
      assert Visible(a, id);
    }
  }

  function StoreAll(cache: Cache, items: seq<Clip>): Cache {
    if |items| == 0 then cache
    else
      var c := items[|items| - 1];
      StoreAll(cache, items[..|items| - 1])[c.env.id := ItemOf(c)]
  }

  lemma {:induction false} StoredRows(a: Account, cache: Cache, items: seq<Clip>)
    requires forall i :: 0 <= i < |items| ==> items[i].env.id in a.clips && items[i] == a.clips[items[i].env.id]
    ensures forall id ::
      id in StoreAll(cache, items) <==> id in cache || exists i :: 0 <= i < |items| && items[i].env.id == id
    ensures forall i :: 0 <= i < |items| ==> Agrees(a, StoreAll(cache, items), items[i].env.id)
    ensures forall id :: id in cache && (forall i :: 0 <= i < |items| ==> items[i].env.id != id) ==>
      id in StoreAll(cache, items) && StoreAll(cache, items)[id] == cache[id]
  {
    if |items| > 0 {
      StoredRows(a, cache, items[..|items| - 1]);
    }
  }

  /** One page: its rows are current, in id order, and nothing visible is skipped before the token. */
  lemma PageContents(a: Account, base: nat, after: Uuid, limit: nat)
    requires RowsOk(a) && limit > 0
    ensures var (items, next) := ScanPage(a, base, after, limit);
      && (forall i :: 0 <= i < |items| ==>
            items[i].env.id in ScanVisible(a, base, after) && items[i] == a.clips[items[i].env.id])
      && (forall i, j :: 0 <= i < j < |items| ==> items[i].env.id < items[j].env.id)
      && (forall id :: id in ScanVisible(a, base, after) && (next.Some? ==> id <= next.value) ==>
            exists i :: 0 <= i < |items| && items[i].env.id == id)
      && (next.Some? ==> |items| == limit && next.value == items[limit - 1].env.id)
  {
    hide RowsOk, ScanVisible, Ascending;
    var s := ScanVisible(a, base, after);
    var ids := Ascending(s);
    AscendingIsSorted(s);
    var (items, next) := ScanPage(a, base, after, limit);
    forall i | 0 <= i < |ids| ensures ids[i] in s && ids[i] in a.clips && a.clips[ids[i]].env.id == ids[i] {
      assert ids[i] in ids;
      VisibleIsRow(a, base, after, ids[i]);
    }
    assert forall i :: 0 <= i < |items| ==> items[i] == a.clips[ids[i]];
    forall id | id in s && (next.Some? ==> id <= next.value)
      ensures exists i :: 0 <= i < |items| && items[i].env.id == id
    {
      var i :| 0 <= i < |ids| && ids[i] == id;
      assert i < |items|;
    }
  }

  lemma VisibleIsRow(a: Account, base: nat, after: Uuid, id: Uuid)
    requires RowsOk(a) && id in ScanVisible(a, base, after)
    ensures id in a.clips && a.clips[id].env.id == id
  {
    assert RowOk(a, id);
  }

  /** After storing a page, everything it covers is cached, and what was cached before the page still is. */
  lemma PageCovers(a: Account, cache: Cache, base: nat, after: Uuid, limit: nat, id: Uuid)
    requires Inv(a) && limit > 0 && Scanned(a, cache, base, after)
    requires Visible(a, id) && NIL_UUID < id && a.clips[id].lastSeq <= base
    requires var next := ScanPage(a, base, after, limit).1; next.Some? ==> id <= next.value
    ensures Agrees(a, StoreAll(cache, ScanPage(a, base, after, limit).0), id)
  {
    var (items, next) := ScanPage(a, base, after, limit);
    PageContents(a, base, after, limit);
    StoredRows(a, cache, items);
    if i :| 0 <= i < |items| && items[i].env.id == id {
    } else {
      RowsBounded(a);
      assert id !in ScanVisible(a, base, after);
      assert Agrees(a, cache, id);
    }
  }

  /** Storing one page extends the scan to its token; the page without a token completes it. */
  lemma PageAdvances(a: Account, cache: Cache, base: nat, after: Uuid, limit: nat)
    requires Inv(a) && limit > 0 && Scanned(a, cache, base, after)
    ensures var (items, next) := ScanPage(a, base, after, limit);
      var stored := StoreAll(cache, items);
      if next.Some? then Scanned(a, stored, base, next.value) else Synced(a, stored, base, base)
  {
    var (items, next) := ScanPage(a, base, after, limit);
    var stored := StoreAll(cache, items);
    if next.Some? {
      forall id: Uuid | Visible(a, id) && NIL_UUID < id <= next.value && a.clips[id].lastSeq <= base
        ensures Agrees(a, stored, id)
      {
        PageCovers(a, cache, base, after, limit, id);
      }
    } else {
      forall id: Uuid | Visible(a, id) && Owed(a.clips[id], base, base) ensures Agrees(a, stored, id) {
        assert RowOk(a, id);
        PageCovers(a, cache, base, after, limit, id);
      }
    }
  }

  lemma PageKeepsKnown(a: Account, cache: Cache, base: nat, after: Uuid)
    requires RowsOk(a) && Known(a, cache, {})
    ensures Known(a, StoreAll(cache, ScanPage(a, base, after, PAGE).0), {})
  {
    PageContents(a, base, after, PAGE);
    StoredRows(a, cache, ScanPage(a, base, after, PAGE).0);
    ClipsAreRegistered(a);
  }

  /** The rows left to scan fall with every page that has a successor, and no other device can add one. */
  lemma ScanShrinks(a: Account, base: nat, after: Uuid, limit: nat)
    requires Inv(a) && limit > 0 && ScanPage(a, base, after, limit).1.Some?
    ensures var next := ScanPage(a, base, after, limit).1.value;
      after < next && ScanRows(a, base, next) < ScanRows(a, base, after)
  {
    var (items, next) := ScanPage(a, base, after, limit);
    PageContents(a, base, after, limit);
    assert items[limit - 1].env.id in ScanVisible(a, base, after);
    assert next.value in ScanRows(a, base, after) && next.value !in ScanRows(a, base, next.value);
  }

  lemma OthersAddNoScanRows(a: Account, b: Account, base: nat, after: Uuid)
    requires Inv(a) && Follows(a, b) && base <= a.nextSeq
    ensures ScanRows(b, base, after) <= ScanRows(a, base, after)
  {
    forall id | id in ScanRows(b, base, after) ensures id in ScanRows(a, base, after) {
      assert IdEvolves(a, b, id);
      assert RowOk(b, id);
      ClipsAreRegistered(a);
      assert id in a.clipIds;
      ScanRowWasThere(a, b, id);
    }
  }

  lemma ScanRowWasThere(a: Account, b: Account, id: Uuid)
    requires Inv(a) && Follows(a, b) && id in b.clips && id in a.clipIds
    ensures id in a.clips && a.clips[id].createdSeq == b.clips[id].createdSeq
  {
    assert IdEvolves(a, b, id);
    assert RowOk(b, id);
    assert id in a.clips ==> RowOk(a, id);
  }

  // ----- agreement at a quiescent watermark -----

  /**
   * The cache is the server's unpurged clips, each exactly as the server has it; only expired trash
   * may be there or not. A clip with the nil UUID counts if something happened to it after the scan.
   */
  ghost predicate Converged(a: Account, cache: Cache, base: nat) {
    && (forall id :: id in cache ==> id in a.clips && cache[id] == ItemOf(a.clips[id]))
    && (forall id :: Visible(a, id) && (id == NIL_UUID ==> base < a.clips[id].lastSeq) ==> id in cache)
  }

  /** Agreement, clip by clip and field by field. */
  lemma ConvergedIff(a: Account, cache: Cache, base: nat)
    ensures Converged(a, cache, base) <==>
      && (forall id :: id in cache ==>
            && id in a.clips
            && cache[id].status == a.clips[id].status && cache[id].version == a.clips[id].version
            && cache[id].createdSeq == a.clips[id].createdSeq && cache[id].expiresAt == a.clips[id].expiresAt)
      && (forall id ::
            && id in a.clips && (id == NIL_UUID ==> base < a.clips[id].lastSeq)
            && !(a.clips[id].status == Trash && a.clips[id].expiresAt.Some? && a.clips[id].expiresAt.value <= a.clock)
            ==> id in cache)
  {
    forall id | id in cache && id in a.clips
      ensures cache[id] == ItemOf(a.clips[id]) <==>
        && cache[id].status == a.clips[id].status && cache[id].version == a.clips[id].version
        && cache[id].createdSeq == a.clips[id].createdSeq && cache[id].expiresAt == a.clips[id].expiresAt
    {
    }
  }

  /** At the watermark, a cache that owes nothing agrees with the server exactly when nothing in it is stale. */
  lemma QuiescentAgreement(a: Account, cache: Cache, base: nat)
    requires Inv(a) && Synced(a, cache, a.nextSeq, base)
    ensures Converged(a, cache, base) <==> NoStale(a, cache, a.nextSeq, {})
  {
    hide LogOk, RetentionOk, LogIsState, QuotaOk, SnapshotsOk;
    RowsBounded(a);
    forall id | Visible(a, id) && (id == NIL_UUID ==> base < a.clips[id].lastSeq) ensures Agrees(a, cache, id) {
      assert RowOk(a, id);
    }
    forall id | id in cache && id in a.clipIds ensures Passed(a, a.nextSeq, id) {
    }
    assert forall id :: id in a.clips ==> RowOk(a, id);
  }
}
