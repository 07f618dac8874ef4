/** The Windows sync engine: loops of API calls, with other devices' transactions landing between them. */
module SyncEngine {
  import opened Domain
  import opened Accounts
  import opened Invariant
  import opened Evolution
  import opened Runs
  import opened Canon
  import opened Server
  import opened Replica
  import opened Schedules
  import opened History
  import opened Retention

  class Api {
    const store: Store
    const device: Uuid
    var schedule: seq<Turn>

    constructor (store: Store, device: Uuid, schedule: seq<Turn>)
      ensures this.store == store && this.device == device && this.schedule == schedule
    {
      this.store, this.device, this.schedule := store, device, schedule;
    }

    predicate Enrolled()
      reads this, store
    {
      device in store.db.devices
    }

    /** Either a turn was used up, or nothing happened. */
    twostate predicate TurnTaken()
      reads this, store
    {
      |schedule| < |old(schedule)| || (old(schedule) == schedule == [] && store.db == old(store.db))
    }

    method Interleave() returns (turn: Turn)
      requires Inv(store.db)
      modifies this, store
      ensures Onward(old(store.db), old(schedule), store.db, schedule) && TurnTaken()
      ensures store.db == Met(old(store.db), old(schedule)) && schedule == Rest(old(schedule))
      ensures old(schedule) == [] ==> !turn.requestLost && !turn.responseLost
    {
      hide Inv, Evolves, Onward;
      MetIsOnward(store.db, schedule);
      if schedule == [] {
        return Turn([], false, false);
      }
      turn := schedule[0];
      schedule := schedule[1..];
      store.PerformAll(turn.others);
    }

    method Changes(epoch: Uuid, after: nat) returns (r: Result<ChangePage>)
      requires Inv(store.db)
      modifies this, store
      ensures Onward(old(store.db), old(schedule), store.db, schedule) && TurnTaken()
      ensures store.db == Met(old(store.db), old(schedule)) && schedule == Rest(old(schedule))
      ensures r == Accounts.Changes(store.db, epoch, after, PAGE) || (r == Err(Unavailable) && old(schedule) != [])
    {
      var turn := Interleave();
      r := store.Changes(epoch, after, PAGE);
      if turn.requestLost || turn.responseLost {
        r := Err(Unavailable);
      }
    }

    method GetClip(id: Uuid) returns (r: Result<Clip>)
      requires Inv(store.db)
      modifies this, store
      ensures Onward(old(store.db), old(schedule), store.db, schedule) && TurnTaken()
      ensures r == Accounts.GetClip(store.db, id) || (r == Err(Unavailable) && old(schedule) != [])
    {
      var turn := Interleave();
      r := store.GetClip(id);
      if turn.requestLost || turn.responseLost {
        r := Err(Unavailable);
      }
    }

    /** The server may have committed even when the caller sees a failure. */
    method CreateClip(env: Envelope) returns (r: Result<CreateResult>)
      requires Inv(store.db)
      modifies this, store
      ensures Onward(old(store.db), old(schedule), store.db, schedule)
      ensures r.Ok? ==> Registered(store.db, env) && IsReceiptOf(store.db, env.id, r.value.receipt)
    {
      hide Inv, Evolves, Registered, IsReceiptOf, Accounts.CreateClip;
      var turn := Interleave();
      var before := store.db;
      if turn.requestLost {
        return Err(Unavailable);
      }
      r := store.CreateClip(device, env, CreateRequestHash(env));
      CreateAfter(before, schedule, device, env);
      OnwardTransitively(old(store.db), old(schedule), before, schedule, store.db, schedule);
      if turn.responseLost {
        r := Err(Unavailable);
      }
    }

    method BeginSnapshot() returns (r: Result<Snapshot>)
      requires Inv(store.db)
      modifies this, store
      ensures Onward(old(store.db), old(schedule), store.db, schedule)
      ensures |schedule| < |old(schedule)| || old(schedule) == schedule == []
      ensures schedule == Rest(old(schedule))
      ensures var met := Met(old(store.db), old(schedule));
        SameTables(met, store.db) && met.clock == store.db.clock && Onward(met, schedule, store.db, schedule)
      ensures r.Ok? ==> Started(store.db, device, r.value)
      ensures old(schedule) == [] ==>
        && (old(Enrolled()) ==> r.Ok?)
        && (Enrolled() <==> old(Enrolled()))
        && store.db.nextSeq == old(store.db.nextSeq)
    {
      var turn := Interleave();
      var before := store.db;
      OnwardItself(before, schedule);
      if turn.requestLost {
        return Err(Unavailable);
      }
      var token := FreshToken(store.db.issued);
      r := store.BeginSnapshot(device, token);
      StartAfter(before, schedule, device, token);
      OnwardTransitively(old(store.db), old(schedule), before, schedule, store.db, schedule);
      if turn.responseLost {
        r := Err(Unavailable);
      }
    }

    method SnapshotPage(token: nat, page: Option<Uuid>) returns (r: Result<SnapshotPage>)
      requires Inv(store.db)
      modifies this, store
      ensures Onward(old(store.db), old(schedule), store.db, schedule) && TurnTaken()
      ensures r == SnapshotRead(store.db, device, token, page, PAGE) || (r == Err(Unavailable) && old(schedule) != [])
    {
      var turn := Interleave();
      r := store.SnapshotPage(device, token, page, PAGE);
      if turn.requestLost || turn.responseLost {
        r := Err(Unavailable);
      }
    }
  }

  /** The receipt of a creation carries version 1 and the number under which the id is registered. */
  predicate IsReceiptOf(a: Account, id: Uuid, receipt: Receipt) {
    id in a.clipIds && receipt.version == 1 && receipt.seqNo == a.clipIds[id].createdSeq
  }

  /** Entries keep what they show, save that an uploaded copy takes the numbers of its creation. */
  predicate OnlyNumbersTaken(a: Account, was: Cache, now: Cache, rows: map<Uuid, Envelope>, left: map<Uuid, Envelope>) {
    && now.Keys == was.Keys
    && (forall id :: id in was && (id in left || id !in rows) ==> now[id] == was[id])
    && (forall id :: id in was && id in rows && id !in left ==>
          && id in a.clipIds
          && now[id].version == 1 && now[id].createdSeq == a.clipIds[id].createdSeq
          && now[id].status == was[id].status && now[id].expiresAt == was[id].expiresAt)
  }

  lemma NumbersStay(a: Account, b: Account, was: Cache, now: Cache, rows: map<Uuid, Envelope>,
      left: map<Uuid, Envelope>)
    requires Follows(a, b) && OnlyNumbersTaken(a, was, now, rows, left)
    ensures OnlyNumbersTaken(b, was, now, rows, left)
  {
    forall id | id in a.clipIds ensures id in b.clipIds && b.clipIds[id].createdSeq == a.clipIds[id].createdSeq {
      assert IdEvolves(a, b, id);
    }
  }

  lemma NothingTaken(a: Account, cache: Cache, rows: map<Uuid, Envelope>)
    ensures OnlyNumbersTaken(a, cache, cache, rows, rows)
  {
  }

  lemma OneMoreNumber(a: Account, was: Cache, held: Cache, now: Cache, rows: map<Uuid, Envelope>,
      left: map<Uuid, Envelope>, id: Uuid)
    requires OnlyNumbersTaken(a, was, held, rows, left) && id in left && id in rows
    requires OnlyNumbersTaken(a, held, now, left, left - {id})
    ensures OnlyNumbersTaken(a, was, now, rows, left - {id})
  {
  }

  lemma CreateAfter(a: Account, schedule: seq<Turn>, device: Uuid, env: Envelope)
    requires Inv(a)
    ensures var (b, r) := CreateStep(a, device, env);
      && Onward(a, schedule, b, schedule)
      && (r.Ok? ==> Registered(b, env) && IsReceiptOf(b, env.id, r.value.receipt))
  {
    hide Inv, Evolves, Onward;
    OwnStepIsOnward(a, schedule, Create(device, env));
    CreateRegisters(a, device, env);
  }

  predicate Started(a: Account, device: Uuid, s: Snapshot) {
    && s.baseSeq == a.nextSeq && s.epoch == a.epoch
    && s.token in a.snapshots && a.snapshots[s.token] == SnapshotSession(device, s.baseSeq, s.epoch, s.expiresAt)
    && s.token in a.issued && a.clock < s.expiresAt
  }

  lemma StartAfter(a: Account, schedule: seq<Turn>, device: Uuid, token: nat)
    requires Inv(a)
    ensures var (b, r) := Accounts.BeginSnapshot(a, device, token);
      && Onward(a, schedule, b, schedule) && SameTables(a, b) && (r.Ok? ==> Started(b, device, r.value))
      && b.devices == a.devices && b.nextSeq == a.nextSeq && b.clock == a.clock
      && (token !in a.issued && device in a.devices ==> r.Ok?)
  {
    hide Inv, Evolves, Onward;
    OwnStepIsOnward(a, schedule, StartSnapshot(device, token));
  }

  /** Random tokens do not repeat; any unused number will do. */
  method FreshToken(issued: set<nat>) returns (t: nat)
    ensures t !in issued
  {
    t := 0;
    var rest := issued;
    while rest != {}
      invariant rest <= issued && forall x :: x in issued && x !in rest ==> x < t
      decreases |rest|
    {
      var x :| x in rest;
      if x >= t { t := x + 1; }
      rest := rest - {x};
    }
  }

  /** The events numbered from `from` + 1 on. */
  predicate IsSlice(a: Account, from: nat, events: seq<Event>) {
    from + |events| <= |a.log| && events == a.log[from..from + |events|]
  }

  lemma SliceAt(a: Account, from: nat, events: seq<Event>, i: nat)
    requires Inv(a) && IsSlice(a, from, events) && i < |events|
    ensures from + i < |a.log| == a.nextSeq && a.log[from + i] == events[i]
  {
  }

  lemma SliceIsKept(a: Account, b: Account, from: nat, events: seq<Event>)
    requires Follows(a, b) && IsSlice(a, from, events)
    ensures IsSlice(b, from, events)
  {
  }

  lemma NextSeqGrows(a: Account, b: Account)
    requires Follows(a, b)
    ensures Inv(b) && a.nextSeq <= b.nextSeq
  {
  }

  /** Other transactions leave everything standing that the engine relies on. */
  lemma EngineStatePersists(a: Account, b: Account, cache: Cache, cursor: nat, base: nat, pending: set<Uuid>)
    requires Inv(a) && Follows(a, b) && cursor <= a.nextSeq && Synced(a, cache, cursor, base)
    requires Ahead(a, pending, cursor)
    requires Known(a, cache, pending)
    ensures Inv(b) && cursor <= b.nextSeq && Synced(b, cache, cursor, base) && Ahead(b, pending, cursor)
    ensures a.nextSeq <= b.nextSeq && Known(b, cache, pending)
    ensures NoStale(a, cache, cursor, pending) ==> NoStale(b, cache, cursor, pending)
  {
    hide Inv, Synced, NoStale, Ahead, Known, Evolves;
    SyncedPersists(a, b, cache, cursor, base);
    AheadPersists(a, b, pending, cursor);
    KnownPersists(a, b, cache, pending);
    NextSeqGrows(a, b);
    if NoStale(a, cache, cursor, pending) {
      NoStalePersists(a, b, cache, cursor, pending);
    }
  }

  /** The page after `after` is the slice of the log up to its next_seq. */
  lemma PageFits(a: Account, epoch: Uuid, after: nat)
    requires Inv(a) && Accounts.Changes(a, epoch, after, PAGE).Ok?
    ensures var p := Accounts.Changes(a, epoch, after, PAGE).value;
      && IsSlice(a, after, p.events) && after + |p.events| == p.nextSeq <= |a.log| == a.nextSeq
      && p.epoch == a.epoch
      && (if p.hasMore then after < p.nextSeq else p.nextSeq == a.nextSeq)
    ensures epoch == a.epoch && after <= a.nextSeq && a.minAvailableSeq <= after + 1
  {
    PageHasNoGap(a, epoch, after, PAGE);
  }

  lemma RefusedMeansNotAccepted(a: Account, epoch: Uuid, after: nat)
    requires Inv(a) && Accounts.Changes(a, epoch, after, PAGE).Err?
    ensures !(epoch == a.epoch && after <= a.nextSeq && a.minAvailableSeq <= after + 1)
    ensures var error := Accounts.Changes(a, epoch, after, PAGE).error; error.CursorExpired? || error.SyncResetRequired?
  {
    PageHasNoGap(a, epoch, after, PAGE);
  }

  /** A cursor at the newest event is never too old. */
  lemma HeadIsAvailable(a: Account)
    requires Inv(a)
    ensures a.minAvailableSeq <= a.nextSeq + 1
  {
  }

  lemma RegisteredStays(a: Account, b: Account)
    requires RegistrationsKept(a, b)
    ensures forall env :: Registered(a, env) ==> Registered(b, env)
  {
  }

  /** An id the server has not seen can be queued and shown without touching what is owed. */
  lemma QueuedItem(a: Account, cache: Cache, cursor: nat, base: nat, pending: set<Uuid>, id: Uuid, item: Item)
    requires Inv(a) && id !in a.clipIds && Synced(a, cache, cursor, base) && Ahead(a, pending, cursor)
    ensures Synced(a, cache[id := item], cursor, base) && Ahead(a, pending + {id}, cursor)
    ensures Known(a, cache, pending) ==> Known(a, cache[id := item], pending + {id})
    ensures NoStale(a, cache, cursor, pending) ==> NoStale(a, cache[id := item], cursor, pending + {id})
  {
    ClipsAreRegistered(a);
  }

  /** An upload that was just acknowledged is newer than the cursor, so its item may be rewritten freely. */
  lemma UploadedItem(a: Account, cache: Cache, cursor: nat, base: nat, pending: set<Uuid>, id: Uuid, version: nat,
      createdSeq: nat)
    requires Inv(a) && id in pending && id in a.clipIds && Ahead(a, pending, cursor) && Synced(a, cache, cursor, base)
    ensures Ahead(a, pending - {id}, cursor)
    ensures
      var after :=
        if id in cache then cache[id := cache[id].(version := version, createdSeq := createdSeq)] else cache;
      && Synced(a, after, cursor, base)
      && (Known(a, cache, pending) ==> Known(a, after, pending - {id}))
      && (NoStale(a, cache, cursor, pending) ==> NoStale(a, after, cursor, pending - {id}))
  {
    hide LogOk, RetentionOk, LogIsState, QuotaOk, SnapshotsOk;
    RowsBounded(a);
    assert id in a.clips ==> RowOk(a, id);
  }

  /** Events are numbered from 1, so cursor 0 vouches for nothing. */
  lemma NothingOwedAtZero(a: Account, cache: Cache, base: nat)
    requires Inv(a)
    ensures Synced(a, cache, 0, base)
  {
    RowsBounded(a);
  }

  function TokenId(page: Option<Uuid>): Uuid {
    if page.Some? then page.value else NIL_UUID
  }

  lemma ScanStarts(a: Account, cache: Cache, base: nat)
    ensures Scanned(a, cache, base, NIL_UUID)
  {
  }

  /** Between two pages the scan keeps what it has, and its remaining work only shrinks. */
  lemma ScanGoesOn(start: Account, a: Account, b: Account, cache: Cache, base: nat, after: Uuid)
    requires Inv(start) && Follows(start, a) && Follows(a, b) && base <= start.nextSeq
    ensures base <= b.nextSeq
    ensures Scanned(a, cache, base, after) ==> Scanned(b, cache, base, after)
    ensures ScanRows(b, base, after) <= ScanRows(a, base, after)
  {
    if Scanned(a, cache, base, after) { ScannedPersists(a, b, cache, base, after); }
    OthersAddNoScanRows(a, b, base, after);
  }

  /** A token names one session for good: a page it answers is a page of this scan. */
  lemma ReadIsPage(start: Account, a: Account, device: Uuid, snap: Snapshot, page: Option<Uuid>)
    requires Started(start, device, snap) && Follows(start, a)
    requires SnapshotRead(a, device, snap.token, page, PAGE).Ok?
    ensures var p := SnapshotRead(a, device, snap.token, page, PAGE).value;
      (p.items, p.next) == ScanPage(a, snap.baseSeq, TokenId(page), PAGE)
  {
  }

  /** Nothing but interference makes a page fail. */
  lemma QuietReadSucceeds(a: Account, device: Uuid, snap: Snapshot, page: Option<Uuid>)
    requires Started(a, device, snap)
    ensures SnapshotRead(a, device, snap.token, page, PAGE).Ok?
  {
  }

  lemma PageStored(a: Account, cache: Cache, base: nat, after: Uuid)
    requires Inv(a) && Scanned(a, cache, base, after)
    ensures var (items, next) := ScanPage(a, base, after, PAGE);
      var stored := StoreAll(cache, items);
      && (if next.Some? then Scanned(a, stored, base, next.value) else Synced(a, stored, base, base))
      && (next.Some? ==> ScanRows(a, base, next.value) < ScanRows(a, base, after))
  {
    PageAdvances(a, cache, base, after, PAGE);
    if ScanPage(a, base, after, PAGE).1.Some? { ScanShrinks(a, base, after, PAGE); }
  }

  /** Changes would be answered with a page. */
  predicate Accepts(a: Account, epoch: Option<Uuid>, cursor: nat) {
    epoch == Some(a.epoch) && cursor <= a.nextSeq && a.minAvailableSeq <= cursor + 1
  }

  /** Changes will be answered with a page at every call of the schedule. */
  ghost predicate SecuredAt(a: Account, schedule: seq<Turn>, epoch: Option<Uuid>, cursor: nat) {
    epoch == Some(a.epoch) && Steady(schedule) && SecureFor(a, cursor, schedule)
  }

  lemma SecuredOnward(a: Account, s: seq<Turn>, b: Account, t: seq<Turn>, epoch: Option<Uuid>, cursor: nat)
    requires Onward(a, s, b, t) && SecuredAt(a, s, epoch, cursor)
    ensures SecuredAt(b, t, epoch, cursor) && Accepts(b, epoch, cursor)
  {
    hide SecureFor, Steady;
    OnwardGives(a, s, b, t);
    OnwardSecures(a, s, b, t, cursor);
    SecuredIsAccepted(b, t, epoch, cursor);
  }

  lemma SecuredIsAccepted(a: Account, schedule: seq<Turn>, epoch: Option<Uuid>, cursor: nat)
    requires SecuredAt(a, schedule, epoch, cursor)
    ensures Accepts(a, epoch, cursor)
  {
    SecureIsAvailable(a, cursor, schedule);
  }

  /** The base of a scan is secure from the moment it is handed out. */
  lemma BaseIsSecured(a: Account, s: seq<Turn>, b: Account, t: seq<Turn>)
    requires Inv(a) && Gentle(s) && Onward(a, s, b, t)
    ensures SecuredAt(b, t, Some(a.epoch), a.nextSeq)
  {
    hide Inv, SecureFor;
    HeadIsSecureFor(a, s);
    SecuredOnward(a, s, b, t, Some(a.epoch), a.nextSeq);
  }

  /** A refused cursor is still refused when the next request arrives, unless its epoch comes back by then. */
  lemma RefusedIsTurnedAway(a: Account, schedule: seq<Turn>, epoch: Option<Uuid>, cursor: nat)
    requires Inv(a) && cursor <= a.nextSeq && !Accepts(a, epoch, cursor)
    requires schedule == [] || KeepsEpoch(schedule[0].others)
    ensures !Accepts(Met(a, schedule), epoch, cursor)
  {
    if schedule != [] {
      RunFollows(a, schedule[0].others);
      RunKeepsEra(a, schedule[0].others);
    }
  }

  /** A page of state b is applied by c and moves the cursor from k to m. */
  lemma CursorMoves(b: Account, rest: seq<Turn>, held: Cache, k: nat, c: Account, left: seq<Turn>, cache: Cache, m: nat,
      epoch: Option<Uuid>)
    requires Inv(b) && Onward(b, rest, c, left) && k <= m <= b.nextSeq
    requires Carried(c, b.clock, held, k, cache, m) && Known(c, cache, {})
    ensures Inv(c) && m <= c.nextSeq && Ahead(c, {}, m)
    ensures NoStale(b, held, k, {}) ==> NoStale(c, cache, m, {})
    ensures SecuredAt(b, rest, epoch, k) ==> SecuredAt(c, left, epoch, m) && Accepts(c, epoch, m)
  {
    hide Inv, Onward, Carried, NoStale, Known, Follows, SecureFor, Steady;
    OnwardGives(b, rest, c, left);
    if NoStale(b, held, k, {}) {
      CarriedStaysClean(b, c, b.clock, held, k, cache, m);
    }
    if SecuredAt(b, rest, epoch, k) {
      SecuredOnward(b, rest, c, left, epoch, k);
      LaterIsSecureFor(c, k, m, left);
      SecuredIsAccepted(c, left, epoch, m);
    }
  }

  /** What follows an answer also follows the question, asked in state a and answered in b. */
  lemma AnswerCarriedOn(a: Account, s: seq<Turn>, b: Account, rest: seq<Turn>, held: Cache, k: nat, c: Account,
      left: seq<Turn>, cache: Cache, m: nat)
    requires Inv(a) && Onward(a, s, b, rest) && Onward(b, rest, c, left) && k <= b.nextSeq
    requires Carried(c, b.clock, held, k, cache, m)
    ensures Onward(a, s, c, left) && a.nextSeq <= c.nextSeq && Carried(c, a.clock, held, k, cache, m)
  {
    hide Inv, Onward, Carried, Follows;
    OnwardGives(a, s, b, rest);
    OnwardGives(b, rest, c, left);
    OnwardTransitively(a, s, b, rest, c, left);
    CarriedHere(b, a.clock, held, k);
    CarryOn(b, a.clock, held, k, held, k, c, cache, m);
    OnwardGives(a, s, c, left);
  }

  /** From the start of a pull over its loop's next turn. */
  lemma PullCarriedOn(start: Account, turns: seq<Turn>, cache: Cache, k: nat, a: Account, s: seq<Turn>, held: Cache,
      at: nat, b: Account, rest: seq<Turn>, after: Cache, cursor: nat, base: nat)
    requires Inv(start) && Onward(start, turns, a, s) && Onward(a, s, b, rest)
    requires k <= start.nextSeq && k <= at <= a.nextSeq && at <= cursor
    requires Carried(a, start.clock, cache, k, held, at) && Carried(b, a.clock, held, at, after, cursor)
    requires Synced(b, after, cursor, base) && Known(b, after, {})
    ensures Onward(start, turns, b, rest) && start.nextSeq <= b.nextSeq
    ensures Carried(b, start.clock, cache, k, after, cursor) && LeftAlone(b, start.clock, cache, k, after)
    ensures Verdict(start, cache, k, b, NoStale(b, after, cursor, {}))
  {
    hide Inv, Synced, Known, NoStale, NoneNew, LeftAlone, Verdict, Follows, Onward;
    OnwardGives(start, turns, a, s);
    OnwardGives(a, s, b, rest);
    OnwardTransitively(start, turns, a, s, b, rest);
    OnwardGives(start, turns, b, rest);
    CarryOn(a, start.clock, cache, k, held, at, b, after, cursor);
    VerdictHolds(start, cache, k, b, after, cursor, base);
  }

  /** A rebuild after a refusal in state b still leaves alone what the pull had to leave alone. */
  lemma RefusalCarriedOn(start: Account, turns: seq<Turn>, cache: Cache, k: nat, b: Account, rest: seq<Turn>,
      held: Cache, d: Account, last: seq<Turn>, after: Cache)
    requires Inv(start) && Onward(start, turns, b, rest) && Onward(b, rest, d, last) && k <= start.nextSeq
    requires LeftAlone(b, start.clock, cache, k, held)
    requires LeftAlone(d, Met(b, rest).clock, held, Met(b, rest).nextSeq, after)
    ensures Onward(start, turns, d, last) && start.nextSeq <= d.nextSeq
    ensures LeftAlone(d, start.clock, cache, k, after)
  {
    hide Inv, LeftAlone, Follows, Onward;
    OnwardGives(start, turns, b, rest);
    MetIsOnward(b, rest);
    OnwardGives(b, rest, Met(b, rest), Rest(rest));
    OnwardGives(b, rest, d, last);
    OnwardTransitively(start, turns, b, rest, d, last);
    LeaveAlone(b, start.clock, cache, k, held, d, Met(b, rest).clock, Met(b, rest).nextSeq, after);
  }

  /** A scan and the pulls after it are one rebuild. */
  lemma ScanThenPull(m: Account, rest: seq<Turn>, start: Cache, c: Account, left: seq<Turn>, held: Cache, at: nat,
      d: Account, last: seq<Turn>, cache: Cache, cursor: nat, base: nat)
    requires Inv(m) && Onward(m, rest, c, left) && Onward(c, left, d, last) && m.nextSeq <= at <= c.nextSeq <= cursor
    requires Carried(c, m.clock, start, m.nextSeq, held, at) && Carried(d, c.clock, held, at, cache, cursor)
    requires Synced(d, cache, cursor, base) && Known(d, cache, {})
    ensures Onward(m, rest, d, last) && Carried(d, m.clock, start, m.nextSeq, cache, cursor)
    ensures LeftAlone(d, m.clock, start, m.nextSeq, cache)
    ensures Verdict(m, start, m.nextSeq, d, NoStale(d, cache, cursor, {}))
  {
    hide Inv, Synced, Known, NoStale, NoneNew, LeftAlone, Verdict, Follows, Onward;
    OnwardGives(m, rest, c, left);
    OnwardGives(c, left, d, last);
    OnwardTransitively(m, rest, c, left, d, last);
    OnwardGives(m, rest, d, last);
    CarryOn(c, m.clock, start, m.nextSeq, held, at, d, cache, cursor);
    VerdictHolds(m, start, m.nextSeq, d, cache, cursor, base);
  }

  /** From the call that asks for a rebuild, over the start of its scan in b, to the scan's end in c. */
  lemma ScanGoneOn(a: Account, turns: seq<Turn>, b: Account, rest: seq<Turn>, c: Account, left: seq<Turn>)
    requires Inv(a) && rest == Rest(turns) && Onward(a, turns, b, rest) && Onward(Met(a, turns), rest, b, rest)
    requires Onward(b, rest, c, left)
    ensures Onward(a, turns, c, left) && Onward(Met(a, turns), rest, c, left) && Inv(Met(a, turns))
    ensures Inv(c) && b.nextSeq <= c.nextSeq && a.nextSeq <= c.nextSeq
    ensures Gentle(rest) ==> SecuredAt(c, left, Some(b.epoch), b.nextSeq)
  {
    hide Inv, Follows, Onward, Gentle, SecuredAt, Met, Rest;
    MetIsOnward(a, turns);
    OnwardGives(a, turns, Met(a, turns), rest);
    OnwardGives(a, turns, b, rest);
    OnwardGives(b, rest, c, left);
    OnwardTransitively(a, turns, b, rest, c, left);
    OnwardTransitively(Met(a, turns), rest, b, rest, c, left);
    if Gentle(rest) {
      BaseIsSecured(b, rest, c, left);
    }
  }

  /** The pulls after the scan, from c to d, whatever comes of them. */
  lemma RebuildEnds(a: Account, turns: seq<Turn>, m: Account, start: Cache, c: Account, left: seq<Turn>, held: Cache,
      d: Account, last: seq<Turn>, cache: Cache)
    requires Inv(a) && Inv(m) && Onward(a, turns, c, left) && Onward(m, Rest(turns), c, left)
    requires Onward(c, left, d, last)
    requires LeftAlone(c, m.clock, start, m.nextSeq, held) && LeftAlone(d, c.clock, held, m.nextSeq, cache)
    ensures Onward(a, turns, d, last) && a.nextSeq <= d.nextSeq && LeftAlone(d, m.clock, start, m.nextSeq, cache)
  {
    hide Inv, Follows, Onward, LeftAlone, Rest;
    OnwardGives(m, Rest(turns), c, left);
    OnwardGives(c, left, d, last);
    OnwardTransitively(a, turns, c, left, d, last);
    OnwardGives(a, turns, d, last);
    LeaveAlone(c, m.clock, start, m.nextSeq, held, d, c.clock, m.nextSeq, cache);
  }

  datatype Outcome = Done | Failed(error: Error)

  datatype Pulled = More | UpToDate | Refused | Broken(error: Error)

  class Engine {
    const api: Api
    var epoch: Option<Uuid>     // Session.SyncEpoch, None for the empty string
    var cursor: nat             // Session.Cursor
    var cache: Cache
    var outbox: map<Uuid, Envelope>
    ghost var scanBase: nat     // where the last completed scan started

    constructor (api: Api)
      ensures this.api == api && epoch == None && cursor == 0 && cache == map[] && outbox == map[] && scanBase == 0
    {
      this.api, epoch, cursor, cache, outbox, scanBase := api, None, 0, map[], map[], 0;
    }

    /** Holds between any two API calls, whatever other devices and the network do. */
    ghost predicate Valid()
      reads this, api, api.store
    {
      var db := api.store.db;
      && Inv(db)
      && (epoch.None? ==> cursor == 0)
      && cursor <= db.nextSeq
      && Synced(db, cache, cursor, scanBase)
      && Ahead(db, outbox.Keys, cursor)
      && Known(db, cache, outbox.Keys)
      && forall id :: id in outbox ==> outbox[id].id == id
    }

    /** Whatever the cursor vouches for is cached as the server has it now, expired trash included. */
    ghost predicate Clean()
      reads this, api, api.store
    {
      NoStale(api.store.db, cache, cursor, outbox.Keys)
    }

    predicate Accepted()
      reads this, api, api.store
    {
      Accepts(api.store.db, epoch, cursor)
    }

    ghost predicate Secured()
      reads this, api, api.store
    {
      SecuredAt(api.store.db, api.schedule, epoch, cursor)
    }

    /** The cursor will be refused when the next call arrives. */
    ghost predicate TurnedAway()
      reads this, api, api.store
    {
      epoch.Some? && !Accepts(Met(api.store.db, api.schedule), epoch, cursor)
    }

    /** The cache is what a scan that began in state m, with `rest` still to come, has made of `start`. */
    ghost predicate RebuiltFrom(m: Account, rest: seq<Turn>, start: Cache)
      reads this, api, api.store
    {
      && Onward(m, rest, api.store.db, api.schedule)
      && LeftAlone(api.store.db, m.clock, start, m.nextSeq, cache)
      && Verdict(m, start, m.nextSeq, api.store.db, Clean())
    }

    method ApplyRemote(clip: Clip)
      modifies this`cache
      ensures cache == old(cache)[clip.env.id := ItemOf(clip)]
      ensures var item := cache[clip.env.id];
        && item.status == clip.status && item.version == clip.version
        && item.createdSeq == clip.createdSeq && item.expiresAt == clip.expiresAt
    {
      cache := cache[clip.env.id := Item(clip.status, clip.version, clip.createdSeq, clip.expiresAt)];
    }

    /** One turn of the foreach over a page: fetch the clip's current state and store or drop it. */
    method ApplyEvent(id: Uuid, ghost k: nat) returns (r: Outcome)
      requires Inv(api.store.db) && Synced(api.store.db, cache, k, scanBase) && Known(api.store.db, cache, {})
      requires k < |api.store.db.log| && api.store.db.log[k].clipId == id
      modifies this`cache, api, api.store
      ensures Onward(old(api.store.db), old(api.schedule), api.store.db, api.schedule) && Known(api.store.db, cache, {})
      ensures TurnOrNothing(old(api.store.db), old(api.schedule), api.store.db, api.schedule)
      ensures old(api.schedule) == api.schedule ==> api.schedule == []
      ensures r.Failed? ==> old(api.schedule) != []
      ensures Synced(api.store.db, cache, if r.Done? then k + 1 else k, scanBase)
      ensures Carried(api.store.db, old(api.store.db.clock), old(cache), k, cache, if r.Done? then k + 1 else k)
    {
      hide Inv, Evolves, Synced, Carried, Known, Gentle, Steady, CalmTurns, SecureFor, Still;
      ghost var a, before := api.store.db, cache;
      var got := api.GetClip(id);
      FetchLaterKeepsKnown(a, api.store.db, cache, id);
      FetchLater(a, api.store.db, cache, k, scanBase, id);
      FetchLaterCarries(a, api.store.db, cache, k, id);
      match got {
        case Ok(clip) => ApplyRemote(clip);
        case Err(ClipPurged(_, _)) => cache := cache - {id};
        case Err(TrashExpired(_, _, _)) => cache := cache - {id};
        case Err(e) => return Failed(e);
      }
      assert cache == Fetched(api.store.db, before, id);
      return Done;
    }

    /** The foreach over one page; on failure the cursor has not moved, so what it vouches for still holds. */
    method ApplyPage(events: seq<Event>) returns (r: Outcome)
      requires Inv(api.store.db) && Synced(api.store.db, cache, cursor, scanBase) && Known(api.store.db, cache, {})
      requires IsSlice(api.store.db, cursor, events)
      modifies this`cache, api, api.store
      ensures Onward(old(api.store.db), old(api.schedule), api.store.db, api.schedule) && Known(api.store.db, cache, {})
      ensures TurnOrNothing(old(api.store.db), old(api.schedule), api.store.db, api.schedule)
      ensures r.Failed? ==> |api.schedule| < |old(api.schedule)|
      ensures Synced(api.store.db, cache, if r.Done? then cursor + |events| else cursor, scanBase)
      ensures Carried(api.store.db, old(api.store.db.clock), old(cache), cursor, cache,
                      if r.Done? then cursor + |events| else cursor)
    {
      hide Inv, Evolves, Synced, Carried, Known, Onward, IsSlice, Follows;
      var store := api.store;
      OnwardItself(store.db, api.schedule);
      CarriedHere(store.db, store.db.clock, cache, cursor);
      for i := 0 to |events|
        invariant Onward(old(store.db), old(api.schedule), store.db, api.schedule)
        invariant Inv(store.db) && Known(store.db, cache, {})
        invariant IsSlice(store.db, cursor, events)
        invariant TurnOrNothing(old(store.db), old(api.schedule), store.db, api.schedule)
        invariant Synced(store.db, cache, cursor + i, scanBase)
        invariant Carried(store.db, old(store.db.clock), old(cache), cursor, cache, cursor + i)
      {
        ghost var before, rest, held := store.db, api.schedule, cache;
        OnwardGives(old(store.db), old(api.schedule), before, rest);
        SliceAt(store.db, cursor, events, i);
        r := ApplyEvent(events[i].clipId, cursor + i);
        OnwardGives(before, rest, store.db, api.schedule);
        SliceIsKept(before, store.db, cursor, events);
        OnwardTransitively(old(store.db), old(api.schedule), before, rest, store.db, api.schedule);
        CarryOn(before, old(store.db.clock), old(cache), cursor, held, cursor + i, store.db, cache,
                if r.Done? then cursor + i + 1 else cursor + i);
        if r.Failed? {
          LowerCursor(store.db, cache, cursor + i, cursor, scanBase);
          LowerCarried(store.db, old(store.db.clock), old(cache), cursor, cache, cursor + i, cursor);
          return;
        }
      }
      return Done;
    }

    /** Orders the calls PullChanges and Rebuild make to each other on a server that has gone quiet. */
    function Rank(): nat
      reads this, api, api.store
    {
      if Accepted() then 0 else 2
    }

    /** The rest of a turn of the pull loop: apply the page that came, and only then move the cursor. */
    method TakePage(page: ChangePage) returns (r: Outcome)
      requires Valid() && outbox == map[] && epoch.Some?
      requires Accounts.Changes(api.store.db, epoch.value, cursor, PAGE) == Ok(page)
      modifies this`cache, this`cursor, this`epoch, api, api.store
      ensures Valid() && epoch == old(epoch)
      ensures Onward(old(api.store.db), old(api.schedule), api.store.db, api.schedule)
      ensures TurnOrNothing(old(api.store.db), old(api.schedule), api.store.db, api.schedule)
      ensures r.Failed? ==> |api.schedule| < |old(api.schedule)|
      ensures cursor == if r.Done? then page.nextSeq else old(cursor)
      ensures old(Secured()) ==> Secured() && Accepted()
      ensures old(Clean()) ==> Clean()
      ensures Carried(api.store.db, old(api.store.db.clock), old(cache), old(cursor), cache, cursor)
    {
      hide Inv, Follows, Synced, NoStale, Known, Ahead, Onward, Carried, IsSlice, Accounts.Changes, SecuredAt;
      assert outbox.Keys == {};
      ghost var b, rest, held := api.store.db, api.schedule, cache;
      PageFits(b, epoch.value, cursor);
      r := ApplyPage(page.events);
      CursorMoves(b, rest, held, cursor, api.store.db, api.schedule, cache, if r.Done? then page.nextSeq else cursor,
                  epoch);
      if r.Done? {
        cursor, epoch := page.nextSeq, Some(page.epoch);
      }
    }

    /** One turn of the pull loop: ask for a page, apply it, move the cursor. */
    method PullPage() returns (p: Pulled)
      requires Valid() && outbox == map[] && epoch.Some?
      modifies this`cache, this`cursor, this`epoch, api, api.store
      ensures Valid() && epoch.Some?
      ensures Onward(old(api.store.db), old(api.schedule), api.store.db, api.schedule)
      ensures old(api.store.db.nextSeq) <= api.store.db.nextSeq && old(cursor) <= cursor
      ensures |api.schedule| < |old(api.schedule)| || (old(api.schedule) == api.schedule
        && api.store.db == old(api.store.db) && (old(Accepted()) ==> Accepted() && !p.Refused?)
        && !p.Broken? && (p.More? ==> old(cursor) < cursor))
      ensures |api.schedule| <= |old(api.schedule)|
      ensures old(Secured()) ==> Secured() && Accepted() && !p.Refused?
      ensures old(TurnedAway()) ==> p.Refused? || (p.Broken? && cache == old(cache))
      ensures p.Refused? ==>
        && cache == old(cache) && cursor == old(cursor)
        && api.store.db == Met(old(api.store.db), old(api.schedule)) && api.schedule == Rest(old(api.schedule))
      ensures p.UpToDate? ==> old(api.store.db.nextSeq) <= cursor
      ensures old(Clean()) ==> Clean()
      ensures Carried(api.store.db, old(api.store.db.clock), old(cache), old(cursor), cache, cursor)
    {
      hide Inv, Follows, Synced, NoStale, Known, Ahead, Met, Rest;
      hide Onward, Carried, IsSlice, Accounts.Changes, Gentle, SecuredAt;
      assert outbox.Keys == {};
      ghost var a, s := api.store.db, api.schedule;
      var got := api.Changes(epoch.value, cursor);
      ghost var b, rest := api.store.db, api.schedule;
      OnwardGives(a, s, b, rest);
      EngineStatePersists(a, b, cache, cursor, scanBase, {});
      if SecuredAt(a, s, epoch, cursor) { SecuredOnward(a, s, b, rest, epoch, cursor); }
      CarriedHere(b, a.clock, cache, cursor);
      match got {
        case Ok(page) =>
          PageFits(b, epoch.value, cursor);
          ghost var held, at := cache, cursor;
          var r := TakePage(page);
          AnswerCarriedOn(a, s, b, rest, held, at, api.store.db, api.schedule, cache, cursor);
          if r.Failed? {
            return Broken(r.error);
          }
          return if page.hasMore then More else UpToDate;
        case Err(error) =>
          if got == Accounts.Changes(b, epoch.value, cursor, PAGE) {
            RefusedMeansNotAccepted(b, epoch.value, cursor);
          }
          if error.CursorExpired? || error.SyncResetRequired? {
            return Refused;
          }
          return Broken(error);
      }
    }

    /**
     * The endless loop ends because a page with more to come moves the cursor, and turns run out.
     * `rebuilt` tells that a scan ran over whatever the cache held: never from a secured cursor, always from
     * one that is turned away, and then with the verdict of that scan.
     */
    method PullChanges() returns (r: Outcome, ghost rebuilt: bool)
      requires Valid() && outbox == map[]
      modifies this, api, api.store
      ensures Valid() && outbox == map[]
      ensures Onward(old(api.store.db), old(api.schedule), api.store.db, api.schedule)
      ensures |api.schedule| <= |old(api.schedule)|
      ensures old(api.store.db.nextSeq) <= api.store.db.nextSeq
      ensures r.Done? && epoch.Some? ==> old(api.store.db.nextSeq) <= cursor
      ensures old(epoch).Some? && r.Done? ==> epoch.Some?
      ensures old(Clean()) && !rebuilt ==> Clean()
      ensures old(Secured()) ==> Secured() && Accepted() && !rebuilt
      ensures LeftAlone(api.store.db, old(api.store.db.clock), old(cache), old(cursor), cache)
      ensures !rebuilt ==>
        && Carried(api.store.db, old(api.store.db.clock), old(cache), old(cursor), cache, cursor)
        && Verdict(old(api.store.db), old(cache), old(cursor), api.store.db, Clean())
      ensures old(TurnedAway()) ==>
        var rest := Rest(old(api.schedule));
        var met := Met(Met(old(api.store.db), old(api.schedule)), rest);
        && LeftAlone(api.store.db, met.clock, old(cache), met.nextSeq, cache)
        && (r.Done? && Gentle(Rest(rest)) ==> Secured() && Accepted() && RebuiltFrom(met, Rest(rest), old(cache)))
      ensures old(api.schedule) == [] && old(epoch).Some? && old(api.Enrolled()) ==> r.Done?
      ensures old(api.schedule) == [] ==> api.schedule == [] && api.store.db.nextSeq == old(api.store.db.nextSeq)
      ensures old(api.schedule) == [] ==> (api.Enrolled() <==> old(api.Enrolled()))
      decreases |api.schedule|, Rank()
    {
      hide Inv, Synced, NoStale, Known, Follows, Onward, Gentle, NoneNew, LeftAlone, Verdict, Met, SecuredAt;
      rebuilt := false;
      ghost var start, turns := api.store.db, api.schedule;
      ghost var met := Met(Met(start, turns), Rest(turns));
      OnwardItself(start, turns);
      if SecuredAt(start, turns, epoch, cursor) { SecuredIsAccepted(start, turns, epoch, cursor); }
      CarriedHere(start, start.clock, cache, cursor);
      assert outbox.Keys == {};
      PullCarriedOn(start, turns, cache, cursor, start, turns, cache, cursor, start, turns, cache, cursor, scanBase);
      if epoch.None? {
        return Done, false;
      }
      while true
        invariant Valid() && outbox == map[] && epoch.Some?
        invariant Onward(start, turns, api.store.db, api.schedule)
        invariant |api.schedule| < |turns| || (turns == api.schedule
          && api.store.db == start && (old(Accepted()) ==> Accepted()))
        invariant start.nextSeq <= api.store.db.nextSeq && old(cursor) <= cursor
        invariant old(Clean()) ==> Clean()
        invariant old(Secured()) ==> Secured() && Accepted()
        invariant old(TurnedAway()) ==>
          && api.store.db == start && api.schedule == turns
          && cache == old(cache) && cursor == old(cursor) && epoch == old(epoch)
        invariant Carried(api.store.db, start.clock, old(cache), old(cursor), cache, cursor)
        decreases |api.schedule|, api.store.db.nextSeq - cursor
      {
        ghost var a, s, held, at := api.store.db, api.schedule, cache, cursor;
        var p := PullPage();
        ghost var b, rest, kept := api.store.db, api.schedule, cache;
        assert outbox.Keys == {};
        PullCarriedOn(start, turns, old(cache), old(cursor), a, s, held, at, b, rest, cache, cursor, scanBase);
        CarriedHere(b, met.clock, cache, met.nextSeq);
        match p {
          case More =>
          case UpToDate => return Done, false;
          case Broken(error) => return Failed(error), false;
          case Refused =>
            epoch, cursor := None, 0;
            NothingOwedAtZero(b, cache, scanBase);
            ghost var again;
            r, again := Rebuild();
            RefusalCarriedOn(start, turns, old(cache), old(cursor), b, rest, kept, api.store.db, api.schedule, cache);
            return r, true;
        }
      }
    }

    method StoreItems(items: seq<Clip>)
      modifies this`cache
      ensures cache == StoreAll(old(cache), items)
    {
      for i := 0 to |items|
        invariant cache == StoreAll(old(cache), items[..i])
      {
        assert items[..i + 1][..i] == items[..i];
        ApplyRemote(items[i]);
      }
      assert items[..|items|] == items;
    }

    /** The do-while over snapshot pages. */
    method Scan(snap: Snapshot) returns (r: Outcome)
      requires Inv(api.store.db) && Started(api.store.db, api.device, snap) && Known(api.store.db, cache, {})
      modifies this`cache, api, api.store
      ensures Onward(old(api.store.db), old(api.schedule), api.store.db, api.schedule) && Known(api.store.db, cache, {})
      ensures TurnOrNothing(old(api.store.db), old(api.schedule), api.store.db, api.schedule)
      ensures r.Failed? ==> |api.schedule| < |old(api.schedule)|
      ensures r.Done? ==> Synced(api.store.db, cache, snap.baseSeq, snap.baseSeq)
      ensures Carried(api.store.db, old(api.store.db.clock), old(cache), snap.baseSeq, cache, snap.baseSeq)
    {
      hide Inv, Evolves, Synced, Known, Scanned, SnapshotRead, Carried, Onward;
      var store, base := api.store, snap.baseSeq;
      var page, more := None, true;
      ScanStarts(store.db, cache, base);
      OnwardItself(store.db, api.schedule);
      CarriedHere(store.db, store.db.clock, cache, base);
      while more
        invariant Onward(old(store.db), old(api.schedule), store.db, api.schedule)
        invariant Inv(store.db) && Known(store.db, cache, {})
        invariant TurnOrNothing(old(store.db), old(api.schedule), store.db, api.schedule)
        invariant more ==> Scanned(store.db, cache, base, TokenId(page))
        invariant !more ==> Synced(store.db, cache, base, base)
        invariant Carried(store.db, old(store.db.clock), old(cache), base, cache, base)
        decreases more, ScanRows(store.db, base, TokenId(page))
      {
        ghost var before, rest, held := store.db, api.schedule, cache;
        OnwardGives(old(store.db), old(api.schedule), before, rest);
        var batch := api.SnapshotPage(snap.token, page);
        OnwardGives(before, rest, store.db, api.schedule);
        OnwardTransitively(old(store.db), old(api.schedule), before, rest, store.db, api.schedule);
        OnwardGives(old(store.db), old(api.schedule), store.db, api.schedule);
        ScanGoesOn(old(store.db), before, store.db, cache, base, TokenId(page));
        KnownPersists(before, store.db, cache, {});
        CarriedPersists(before, store.db, old(store.db.clock), old(cache), base, cache, base);
        match batch {
          case Err(error) =>
            QuietReadSucceeds(old(store.db), api.device, snap, page);
            return Failed(error);
          case Ok(p) =>
            ReadIsPage(old(store.db), store.db, api.device, snap, page);
            PageStored(store.db, cache, base, TokenId(page));
            PageCarries(store.db, store.db.clock, cache, base, base, TokenId(page));
            assert RowsOk(store.db) by { InvHasRows(store.db); }
            PageKeepsKnown(store.db, cache, base, TokenId(page));
            StoreItems(p.items);
            FollowsItself(store.db);
            CarryOn(store.db, old(store.db.clock), old(cache), base, held, base, store.db, cache, base);
            page := p.next;
            more := page.Some?;
        }
      }
      return Done;
    }

    /** From nothing known to a cursor: scan, adopt the scan's base, pull what happened since. */
    method Rebuild() returns (r: Outcome, ghost again: bool)
      requires Valid() && epoch == None && outbox == map[]
      modifies this, api, api.store
      ensures Valid() && outbox == map[]
      ensures Onward(old(api.store.db), old(api.schedule), api.store.db, api.schedule)
      ensures |api.schedule| <= |old(api.schedule)|
      ensures old(api.store.db.nextSeq) <= api.store.db.nextSeq
      ensures r.Done? ==> epoch.Some? && old(api.store.db.nextSeq) <= cursor
      ensures
        var met, rest := Met(old(api.store.db), old(api.schedule)), Rest(old(api.schedule));
        && LeftAlone(api.store.db, met.clock, old(cache), met.nextSeq, cache)
        && (r.Done? && !again ==>
              && met.nextSeq <= cursor
              && Carried(api.store.db, met.clock, old(cache), met.nextSeq, cache, cursor)
              && RebuiltFrom(met, rest, old(cache)))
        && (r.Done? && Gentle(rest) ==> !again && Secured() && Accepted())
      ensures old(api.schedule) == [] && old(api.Enrolled()) ==> r.Done?
      ensures old(api.schedule) == [] ==> api.schedule == [] && api.store.db.nextSeq == old(api.store.db.nextSeq)
      ensures old(api.schedule) == [] ==> (api.Enrolled() <==> old(api.Enrolled()))
      decreases |api.schedule|, 1
    {
      hide Inv, Evolves, Synced, NoStale, Known, NoneNew, LeftAlone, Verdict, Onward, Gentle, Follows;
      hide Met, Rest, SecuredAt;
      again := false;
      assert outbox.Keys == {};
      ghost var a, turns, before := api.store.db, api.schedule, cache;
      ghost var met := Met(a, turns);
      var began := api.BeginSnapshot();
      ghost var b, rest := api.store.db, api.schedule;
      OnwardGives(a, turns, b, rest);
      EngineStatePersists(a, b, cache, cursor, scanBase, {});
      CarriedHere(b, met.clock, cache, met.nextSeq);
      if began.Err? {
        return Failed(began.error), false;
      }
      var snap := began.value;
      r := Scan(snap);
      ghost var scanned, c, left := cache, api.store.db, api.schedule;
      ScanGoneOn(a, turns, b, rest, c, left);
      NothingOwedAtZero(c, cache, scanBase);
      if r.Failed? {
        return r, false;
      }
      HeadIsAvailable(b);
      epoch, cursor, scanBase := Some(snap.epoch), snap.baseSeq, snap.baseSeq;
      assert outbox.Keys == {};
      r, again := PullChanges();
      assert outbox.Keys == {};
      ghost var d := api.store.db;
      RebuildEnds(a, turns, met, before, c, left, scanned, d, api.schedule, cache);
      if r.Done? && !again {
        ScanThenPull(met, rest, before, c, left, scanned, snap.baseSeq, d, api.schedule, cache, cursor, scanBase);
      }
    }

    /** One row: the server answers, the row leaves the outbox, the cached item takes the receipt's numbers. */
    method Upload(id: Uuid) returns (r: Outcome)
      requires Valid() && id in outbox
      modifies this`outbox, this`cache, api, api.store
      ensures Valid()
      ensures Onward(old(api.store.db), old(api.schedule), api.store.db, api.schedule)
      ensures outbox == if r.Done? then old(outbox) - {id} else old(outbox)
      ensures r.Done? ==> Registered(api.store.db, old(outbox)[id])
      ensures r.Failed? ==> cache == old(cache)
      ensures OnlyNumbersTaken(api.store.db, old(cache), cache, old(outbox), outbox)
      ensures RegistrationsKept(old(api.store.db), api.store.db)
      ensures old(Clean()) ==> Clean()
    {
      hide Inv, Evolves, Synced, NoStale, Ahead, Known, Gentle, Steady, CalmTurns, SecureFor;
      ghost var a, pending := api.store.db, outbox.Keys;
      var got := api.CreateClip(outbox[id]);
      ghost var b := api.store.db;
      EngineStatePersists(a, b, cache, cursor, scanBase, pending);
      RegistrationsAreKept(a, b);
      if got.Err? {
        return Failed(got.error);
      }
      var receipt := got.value.receipt;
      UploadedItem(b, cache, cursor, scanBase, pending, id, receipt.version, receipt.seqNo);
      outbox := outbox - {id};
      assert outbox.Keys == pending - {id};
      if id in cache {
        cache := cache[id := cache[id].(version := receipt.version, createdSeq := receipt.seqNo)];
      }
      return Done;
    }

    /** Uploads what awaits upload, in any order; a row leaves the outbox only once the server has its id. */
    method FlushOutbox() returns (r: Outcome)
      requires Valid()
      modifies this`outbox, this`cache, api, api.store
      ensures Valid()
      ensures Onward(old(api.store.db), old(api.schedule), api.store.db, api.schedule)
      ensures r.Done? ==> outbox == map[]
      ensures old(outbox) == map[] ==>
        r.Done? && cache == old(cache) && api.schedule == old(api.schedule) && api.store.db == old(api.store.db)
      ensures old(Clean()) ==> Clean()
      ensures forall id :: id in old(outbox) && id !in outbox ==> Registered(api.store.db, old(outbox)[id])
      ensures outbox.Keys <= old(outbox).Keys
      ensures OnlyNumbersTaken(api.store.db, old(cache), cache, old(outbox), outbox)
    {
      hide Inv, Synced, NoStale, Ahead, Known, Registered, Onward, Follows, OnlyNumbersTaken;
      var rows := outbox;
      NothingTaken(api.store.db, cache, outbox);
      OnwardItself(api.store.db, api.schedule);
      while outbox != map[]
        invariant Valid() && forall id :: id in outbox ==> id in rows && outbox[id] == rows[id]
        invariant Onward(old(api.store.db), old(api.schedule), api.store.db, api.schedule)
        invariant rows == map[] ==>
          cache == old(cache) && api.schedule == old(api.schedule) && api.store.db == old(api.store.db)
        invariant old(Clean()) ==> Clean()
        invariant forall id :: id in rows && id !in outbox ==> Registered(api.store.db, rows[id])
        invariant OnlyNumbersTaken(api.store.db, old(cache), cache, rows, outbox)
        decreases outbox.Keys
      {
        var id :| id in outbox;
        ghost var before, turns, held, left := api.store.db, api.schedule, cache, outbox;
        r := Upload(id);
        OnwardGives(before, turns, api.store.db, api.schedule);
        NumbersStay(before, api.store.db, old(cache), held, rows, left);
        RegisteredStays(before, api.store.db);
        OnwardTransitively(old(api.store.db), old(api.schedule), before, turns, api.store.db, api.schedule);
        if r.Failed? {
          return;
        }
        OneMoreNumber(api.store.db, old(cache), held, cache, rows, left, id);
      }
      return Done;
    }

    /** A local copy: queued, shown at once, then uploaded if possible. Not overlapping RunOnce. */
    method EnqueueLocal(env: Envelope)
      requires Valid() && env.id !in api.store.db.clipIds && env.id !in outbox
      modifies this`outbox, this`cache, api, api.store
      ensures Valid()
      ensures Onward(old(api.store.db), old(api.schedule), api.store.db, api.schedule)
      ensures env.id in outbox || Registered(api.store.db, env)
      ensures old(Clean()) ==> Clean()
      ensures env.id in cache && cache[env.id].status == Active && cache[env.id].version == 1
      ensures cache[env.id].expiresAt == None
      ensures env.id in outbox ==> cache[env.id].createdSeq == 0
      ensures env.id !in outbox ==>
        env.id in api.store.db.clipIds && cache[env.id].createdSeq == api.store.db.clipIds[env.id].createdSeq
      ensures forall id :: id in old(cache) && id != env.id && id !in old(outbox) ==>
        id in cache && cache[id] == old(cache)[id]
    {
      hide Inv, Synced, NoStale, Ahead, Known, Onward;
      QueuedItem(api.store.db, cache, cursor, scanBase, outbox.Keys, env.id, Item(Active, 1, 0, None));
      assert outbox[env.id := env].Keys == outbox.Keys + {env.id};
      outbox := outbox[env.id := env];
      cache := cache[env.id := Item(Active, 1, 0, None)];
      var _ := FlushOutbox();
    }

    /** Rebuild if nothing is known yet. */
    method CatchUp() returns (r: Outcome, ghost again: bool)
      requires Valid() && outbox == map[]
      modifies this, api, api.store
      ensures Valid() && outbox == map[]
      ensures Onward(old(api.store.db), old(api.schedule), api.store.db, api.schedule)
      ensures old(epoch).Some? ==>
        && r.Done? && !again && api.store.db == old(api.store.db) && api.schedule == old(api.schedule)
        && cache == old(cache) && cursor == old(cursor) && epoch == old(epoch)
      ensures r.Done? ==> epoch.Some?
      ensures old(epoch).None? && r.Done? ==>
        var met, rest := Met(old(api.store.db), old(api.schedule)), Rest(old(api.schedule));
        && old(api.store.db.nextSeq) <= cursor
        && (!again ==>
              && met.nextSeq <= cursor
              && Carried(api.store.db, met.clock, old(cache), met.nextSeq, cache, cursor)
              && RebuiltFrom(met, rest, old(cache)))
        && (Gentle(rest) ==> !again && Secured() && Accepted())
      ensures old(api.schedule) == [] && old(api.Enrolled()) ==> r.Done?
      ensures old(api.schedule) == [] ==> api.schedule == [] && api.store.db.nextSeq == old(api.store.db.nextSeq)
      ensures old(api.schedule) == [] ==> (api.Enrolled() <==> old(api.Enrolled()))
    {
      hide Inv, Synced, NoStale, Ahead, Known, Onward, Gentle, Carried, Verdict, Met, Rest;
      again, r := false, Done;
      if epoch.None? {
        r, again := Rebuild();
      } else {
        OnwardItself(api.store.db, api.schedule);
      }
    }

    /** With nothing to upload: rebuild if nothing is known yet, then pull. */
    method Receive() returns (r: Outcome, ghost again: bool)
      requires Valid() && outbox == map[]
      modifies this, api, api.store
      ensures Valid() && outbox == map[]
      ensures Onward(old(api.store.db), old(api.schedule), api.store.db, api.schedule)
      ensures r.Done? ==> epoch.Some? && old(api.store.db.nextSeq) <= cursor
      ensures old(epoch).Some? && old(Clean()) && !again ==> Clean()
      ensures r.Done? && (old(Secured()) || (old(epoch).None? && Gentle(Rest(old(api.schedule))))) ==>
        !again && Secured() && Accepted()
      ensures old(api.schedule) == [] && old(api.Enrolled()) ==> r.Done?
      ensures old(api.schedule) == [] ==> api.store.db.nextSeq == old(api.store.db.nextSeq)
      ensures r.Done? && cursor == api.store.db.nextSeq ==> (Converged(api.store.db, cache, scanBase) <==> Clean())
      ensures old(epoch).None? && r.Done? && !again ==>
        RebuiltFrom(Met(old(api.store.db), old(api.schedule)), Rest(old(api.schedule)), old(cache))
      ensures old(TurnedAway()) ==>
        var rest := Rest(old(api.schedule));
        var met := Met(Met(old(api.store.db), old(api.schedule)), rest);
        && LeftAlone(api.store.db, met.clock, old(cache), met.nextSeq, cache)
        && (r.Done? && Gentle(Rest(rest)) ==> Secured() && RebuiltFrom(met, Rest(rest), old(cache)))
      ensures old(Secured()) && r.Done? ==>
        Verdict(old(api.store.db), old(cache), old(cursor), api.store.db, Clean())
    {
      hide Inv, Synced, NoStale, Known, Converged, Verdict, Met, Rest;
      hide Onward, Gentle, Carried, LeftAlone, Follows, SecuredAt;
      ghost var b, rest, start := api.store.db, api.schedule, cache;
      if SecuredAt(b, rest, epoch, cursor) { SecuredIsAccepted(b, rest, epoch, cursor); }
      r, again := CatchUp();
      ghost var c, left, held, at := api.store.db, api.schedule, cache, cursor;
      OnwardGives(b, rest, c, left);
      if r.Failed? {
        return;
      }
      ghost var rebuilt;
      r, rebuilt := PullChanges();
      again := again || rebuilt;
      OnwardTransitively(b, rest, c, left, api.store.db, api.schedule);
      assert outbox.Keys == {};
      if old(epoch).None? && r.Done? && !again {
        MetIsOnward(b, rest);
        OnwardGives(b, rest, Met(b, rest), Rest(rest));
        OnwardGives(c, left, api.store.db, api.schedule);
        ScanThenPull(Met(b, rest), Rest(rest), start, c, left, held, at, api.store.db, api.schedule, cache, cursor,
                     scanBase);
      }
      if cursor == api.store.db.nextSeq {
        QuiescentAgreement(api.store.db, cache, scanBase);
      }
    }

    /**
     * One synchronisation: upload, rebuild if nothing is known yet, then pull. At the watermark the cache agrees
     * with the server exactly when it is clean. After a rebuild, which starts from nothing known or from a
     * refused cursor, the verdict on its scan says when that is: always from an empty cache, and otherwise
     * depending on cached clips that the server has purged or holds as expired trash.
     */
    method RunOnce() returns (r: Outcome, ghost again: bool)
      requires Valid()
      modifies this, api, api.store
      ensures Valid()
      ensures Onward(old(api.store.db), old(api.schedule), api.store.db, api.schedule)
      ensures r.Done? ==> outbox == map[] && epoch.Some? && old(api.store.db.nextSeq) <= cursor
      ensures old(epoch).Some? && old(Clean()) && !again ==> Clean()
      ensures r.Done? && (old(Secured()) || (old(epoch).None? && Gentle(old(api.schedule)))) ==>
        !again && Secured() && Accepted()
      ensures r.Done? && cursor == api.store.db.nextSeq ==> (Converged(api.store.db, cache, scanBase) <==> Clean())
      // on a quiet server
      ensures old(api.schedule) == [] && old(outbox) == map[] && old(api.Enrolled()) ==>
        r.Done? && cursor == api.store.db.nextSeq == old(api.store.db.nextSeq)
      // nothing known
      ensures old(epoch).None? && old(outbox) == map[] && r.Done? && Gentle(Rest(old(api.schedule))) ==>
        RebuiltFrom(Met(old(api.store.db), old(api.schedule)), Rest(old(api.schedule)), old(cache))
      ensures old(epoch).None? && old(outbox) == map[] && old(cache) == map[] && Gentle(Rest(old(api.schedule))) ==>
        (r.Done? && cursor == api.store.db.nextSeq ==>
           && Converged(api.store.db, cache, scanBase)
           && (forall id :: id in cache ==>
                 && id in api.store.db.clips
                 && var c := api.store.db.clips[id];
                    && cache[id].status == c.status && cache[id].version == c.version
                    && cache[id].createdSeq == c.createdSeq && cache[id].expiresAt == c.expiresAt)
           && (forall id :: id != NIL_UUID && Accounts.GetClip(api.store.db, id).Ok? ==> id in cache))
      // a refused cursor
      ensures old(TurnedAway()) && old(outbox) == map[] ==>
        var rest := Rest(old(api.schedule));
        var met := Met(Met(old(api.store.db), old(api.schedule)), rest);
        && LeftAlone(api.store.db, met.clock, old(cache), met.nextSeq, cache)
        && (r.Done? && Gentle(Rest(rest)) ==> Secured() && RebuiltFrom(met, Rest(rest), old(cache)))
      // a cursor that retention spares
      ensures old(Secured()) && old(outbox) == map[] && r.Done? ==>
        Verdict(old(api.store.db), old(cache), old(cursor), api.store.db, Clean())
    {
      hide Inv, Synced, NoStale, Ahead, Known, Converged, Verdict, Met, Rest;
      hide Onward, Gentle, LeftAlone, Follows, SecuredAt;
      again := false;
      ghost var a, turns := api.store.db, api.schedule;
      r := FlushOutbox();
      ghost var b, rest, start := api.store.db, api.schedule, cache;
      OnwardGives(a, turns, b, rest);
      if SecuredAt(a, turns, epoch, cursor) { SecuredOnward(a, turns, b, rest, epoch, cursor); }
      if r.Failed? {
        return;
      }
      if Gentle(rest) { RestIsGentle(rest); }
      r, again := Receive();
      OnwardTransitively(a, turns, b, rest, api.store.db, api.schedule);
      if old(epoch).None? && start == map[] && r.Done? && !again {
        EmptyVerdict(Met(b, rest), Met(b, rest).nextSeq, api.store.db, Clean());
      }
      ConvergedIff(api.store.db, cache, scanBase);
    }
  }

  lemma EmptyVerdict(m: Account, k: nat, b: Account, clean: bool)
    requires Verdict(m, map[], k, b, clean)
    ensures clean
  {
    EmptyIsClean(b, b.clock, k);
  }

  // ----- the stale entries that a rebuild leaves behind -----

  /**
   * A device without a cursor, or with one that is refused, comes back to a quiet server. Its synchronisation
   * succeeds and reaches the watermark, and the cache agrees with the server exactly when no cached clip was
   * purged, or is expired trash that is cached otherwise; every such entry is still there.
   */
  method ComeBack(engine: Engine) returns (r: Outcome)
    requires engine.Valid() && engine.outbox == map[] && engine.api.schedule == [] && engine.api.Enrolled()
    requires !engine.Accepted()
    modifies engine, engine.api, engine.api.store
    ensures engine.Valid() && r.Done?
    ensures engine.cursor == engine.api.store.db.nextSeq == old(engine.api.store.db.nextSeq)
    ensures Follows(old(engine.api.store.db), engine.api.store.db)
    ensures Still(old(engine.api.store.db), engine.api.store.db)
    ensures var was, start := old(engine.api.store.db), old(engine.cache);
      && (Converged(engine.api.store.db, engine.cache, engine.scanBase) <==> !Dirty(was, was.clock, start, was.nextSeq))
      && forall id :: Stale(was, start, was.nextSeq, id) && Hidden(was, was.clock, id) ==>
           id in engine.cache && engine.cache[id] == start[id]
  {
    hide Inv, Synced, NoStale, Ahead, Known, Follows;
    ghost var a, start := engine.api.store.db, engine.cache;
    EmptyIsGentle();
    ghost var again;
    r, again := engine.RunOnce();
    ghost var b := engine.api.store.db;
    OnwardGives(a, [], b, engine.api.schedule);
    forall id | Stale(a, start, a.nextSeq, id) && Hidden(a, a.clock, id)
      ensures id in engine.cache && engine.cache[id] == start[id]
    {
      StillIsStale(a, b, start, a.nextSeq, id);
    }
  }

  lemma HiddenStays(a: Account, b: Account, id: Uuid)
    requires Inv(a) && Follows(a, b) && Still(a, b) && Passed(a, a.nextSeq, id) && Hidden(a, a.clock, id)
    ensures id in a.clips <==> id in b.clips
    ensures id in a.clips ==> b.clips[id] == a.clips[id]
  {
    hide LogOk, RetentionOk, LogIsState, QuotaOk, SnapshotsOk;
    assert IdEvolves(a, b, id);
    assert id in b.clips ==> RowOk(b, id);
    assert id in a.clips ==> RowOk(a, id);
  }

  /**
   * While a device is away, a clip it has cached is trashed and purged, and a month later the log is gone. Its
   * next synchronisation succeeds and reaches the watermark, and the entry is still there.
   */
  method StaleAfterLongAbsence(engine: Engine, id: Uuid, trashOp: Uuid, purgeOp: Uuid) returns (r: Outcome)
    requires engine.Valid() && engine.outbox == map[] && engine.api.schedule == [] && engine.api.Enrolled()
    requires id in engine.cache
    requires id in engine.api.store.db.clips && engine.api.store.db.clips[id].status == Active
    requires trashOp !in engine.api.store.db.receipts && purgeOp !in engine.api.store.db.receipts && trashOp != purgeOp
    modifies engine, engine.api, engine.api.store
    ensures engine.Valid() && r.Done? && engine.cursor == engine.api.store.db.nextSeq
    ensures id in engine.cache && id !in engine.api.store.db.clips
    ensures !Converged(engine.api.store.db, engine.cache, engine.scanBase)
  {
    hide Inv, Synced, NoStale, Ahead, Known, Follows, Converged;
    var store := engine.api.store;
    ghost var a, held := store.db, engine.cache;
    var version := store.db.clips[id].version;
    AbsencePurges(a, id, trashOp, purgeOp);
    GoAway(engine, LongAbsence(id, version, trashOp, purgeOp));
    ghost var b := store.db;
    assert Stale(b, held, b.nextSeq, id) && Hidden(b, b.clock, id);
    r := ComeBack(engine);
    HiddenStays(b, store.db, id);
  }

  /**
   * The same for a clip that is only trashed: after a month it is expired trash, which the job has not purged
   * yet, and the device goes on showing it as active.
   */
  method ActiveAfterLongAbsence(engine: Engine, id: Uuid, trashOp: Uuid) returns (r: Outcome)
    requires engine.Valid() && engine.outbox == map[] && engine.api.schedule == [] && engine.api.Enrolled()
    requires id in engine.cache && engine.cache[id].status == Active
    requires id in engine.api.store.db.clips && engine.api.store.db.clips[id].status == Active
    requires trashOp !in engine.api.store.db.receipts
    modifies engine, engine.api, engine.api.store
    ensures engine.Valid() && r.Done? && engine.cursor == engine.api.store.db.nextSeq
    ensures id in engine.cache && engine.cache[id].status == Active
    ensures id in engine.api.store.db.clips && IsExpired(engine.api.store.db.clips[id], engine.api.store.db.clock)
    ensures !Converged(engine.api.store.db, engine.cache, engine.scanBase)
  {
    hide Inv, Synced, NoStale, Ahead, Known, Follows, Converged;
    var store := engine.api.store;
    ghost var a, held := store.db, engine.cache;
    var version := store.db.clips[id].version;
    AbsenceExpires(a, id, trashOp);
    GoAway(engine, TrashedAway(id, version, trashOp));
    ghost var b := store.db;
    assert Stale(b, held, b.nextSeq, id) && Hidden(b, b.clock, id);
    r := ComeBack(engine);
    HiddenStays(b, store.db, id);
  }

  /** The account moves on while the engine is idle. */
  method GoAway(engine: Engine, actions: seq<Action>)
    requires engine.Valid() && engine.outbox == map[]
    modifies engine.api.store
    ensures engine.Valid() && engine.api.store.db == Run(old(engine.api.store.db), actions)
    ensures old(engine.api.Enrolled()) ==> engine.api.Enrolled()
  {
    hide Inv, Synced, NoStale, Ahead, Known, Follows, Run;
    var store := engine.api.store;
    ghost var a := store.db;
    store.PerformAll(actions);
    RunFollows(a, actions);
    assert engine.outbox.Keys == {};
    EngineStatePersists(a, store.db, engine.cache, engine.cursor, engine.scanBase, {});
    DevicesStay(a, store.db);
  }

  lemma DevicesStay(a: Account, b: Account)
    requires Follows(a, b)
    ensures forall d :: d in a.devices ==> d in b.devices
  {
  }
}
