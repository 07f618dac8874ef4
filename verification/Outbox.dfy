/**
 * Uploading without the gate: a local copy starts a flush of its own beside the one of the regular
 * synchronisation, so flushes overlap each other and the pull. Requests and answers may be lost,
 * late or doubled.
 */
module Outbox {
  import opened Domain
  import opened Accounts
  import opened EventLog
  import opened Invariant
  import opened Runs
  import opened History
  import opened Replica

  /** How far the row at hand has come: after the answer it is removed, then its item is read, then written back. */
  datatype Stage =
    | Asking
    | Told(receipt: Receipt)
    | Dequeued(receipt: Receipt)
    | Holding(receipt: Receipt, item: Option<Item>)

  /** One loop over the rows read at its start. */
  datatype Flush = Flush(rows: seq<Envelope>, stage: Stage)

  datatype Answer = Answer(env: Envelope, receipt: Receipt)

  datatype World = World(
    server: Account,
    device: Uuid,
    outbox: map<Uuid, Envelope>,
    cache: Cache,
    flushes: map<nat, Flush>,
    requests: set<Envelope>,       // sent at some time, perhaps still under way
    answers: set<Answer>,          // given at some time, perhaps never received
    enqueued: map<Uuid, Envelope>) // everything ever copied here

  datatype Move =
    | Others(action: Action)
    | Queue(env: Envelope)
    | Show(id: Uuid)
    | Start(t: nat, rows: seq<Envelope>)
    | Send(t: nat)
    | Deliver(env: Envelope)
    | Receive(t: nat, receipt: Receipt)
    | GiveUp(t: nat)
    | Remove(t: nat)
    | ReadItem(t: nat)
    | WriteItem(t: nat)
    | Fetch(id: Uuid)

  predicate Running(w: World, t: nat) {
    t in w.flushes && |w.flushes[t].rows| > 0
  }

  predicate Enabled(w: World, m: Move) {
    match m
    case Others(_) => true
    case Queue(env) => env.id !in w.enqueued
    case Show(id) => id in w.enqueued
    case Start(t, rows) =>
      t !in w.flushes && forall i :: 0 <= i < |rows| ==> rows[i].id in w.outbox && rows[i] == w.outbox[rows[i].id]
    case Send(t) => Running(w, t) && w.flushes[t].stage == Asking
    case Deliver(env) => env in w.requests
    case Receive(t, receipt) =>
      Running(w, t) && w.flushes[t].stage == Asking && Answer(w.flushes[t].rows[0], receipt) in w.answers
    case GiveUp(t) => t in w.flushes
    case Remove(t) => Running(w, t) && w.flushes[t].stage.Told?
    case ReadItem(t) => Running(w, t) && w.flushes[t].stage.Dequeued?
    case WriteItem(t) => Running(w, t) && w.flushes[t].stage.Holding?
    case Fetch(_) => true
  }

  function Cached(cache: Cache, id: Uuid): Option<Item> {
    if id in cache then Some(cache[id]) else None
  }

  /** The item that was read is written back with the receipt's version and number, whatever is cached by now. */
  function Rewritten(cache: Cache, receipt: Receipt, item: Option<Item>): Cache {
    if item.Some? then cache[receipt.id := item.value.(version := receipt.version, createdSeq := receipt.seqNo)]
    else cache
  }

  ghost function Do(w: World, m: Move): World {
    if !Enabled(w, m) then w
    else match m
      case Others(action) => w.(server := Step(w.server, action))
      case Queue(env) => w.(outbox := w.outbox[env.id := env], enqueued := w.enqueued[env.id := env])
      case Show(id) => w.(cache := w.cache[id := Item(Active, 1, 0, None)])
      case Start(t, rows) => w.(flushes := w.flushes[t := Flush(rows, Asking)])
      case Send(t) => w.(requests := w.requests + {w.flushes[t].rows[0]})
      case Deliver(env) =>
        var (b, r) := CreateStep(w.server, w.device, env);
        w.(server := b, answers := if r.Ok? then w.answers + {Answer(env, r.value.receipt)} else w.answers)
      case Receive(t, receipt) => w.(flushes := w.flushes[t := w.flushes[t].(stage := Told(receipt))])
      case GiveUp(t) => w.(flushes := w.flushes - {t})
      case Remove(t) =>
        var f := w.flushes[t];
        w.(outbox := w.outbox - {f.rows[0].id}, flushes := w.flushes[t := f.(stage := Dequeued(f.stage.receipt))])
      case ReadItem(t) =>
        var f := w.flushes[t];
        w.(flushes := w.flushes[t := f.(stage := Holding(f.stage.receipt, Cached(w.cache, f.stage.receipt.id)))])
      case WriteItem(t) =>
        var f := w.flushes[t];
        w.(cache := Rewritten(w.cache, f.stage.receipt, f.stage.item),
           flushes := w.flushes[t := Flush(f.rows[1..], Asking)])
      case Fetch(id) => w.(cache := Fetched(w.server, w.cache, id))
  }

  ghost function DoAll(w: World, moves: seq<Move>): World {
    if |moves| == 0 then w else Do(DoAll(w, moves[..|moves| - 1]), moves[|moves| - 1])
  }

  // ----- what every move keeps -----

  predicate Mine(enqueued: map<Uuid, Envelope>, env: Envelope) {
    env.id in enqueued && enqueued[env.id] == env
  }

  predicate AllMine(enqueued: map<Uuid, Envelope>, rows: seq<Envelope>) {
    forall i :: 0 <= i < |rows| ==> Mine(enqueued, rows[i])
  }

  /** Everything under way is a copy made here, unaltered. */
  predicate RowsMine(enqueued: map<Uuid, Envelope>, outbox: map<Uuid, Envelope>, requests: set<Envelope>,
      flushes: map<nat, Flush>) {
    && (forall id :: id in enqueued ==> enqueued[id].id == id)
    && (forall id :: id in outbox ==> outbox[id].id == id && Mine(enqueued, outbox[id]))
    && (forall env :: env in requests ==> Mine(enqueued, env))
    && (forall t :: t in flushes ==> AllMine(enqueued, flushes[t].rows))
  }

  /** A receipt tells what the registry holds for this very envelope. */
  predicate AnswerOk(a: Account, answer: Answer) {
    && Registered(a, answer.env)
    && var reg := a.clipIds[answer.env.id];
       answer.receipt == CreateReceipt(answer.env.id, reg.createdSeq, reg.createdAt)
  }

  predicate AnswersOk(a: Account, answers: set<Answer>) {
    forall x :: x in answers ==> AnswerOk(a, x)
  }

  /** What a flush holds as its answer was given for the row it is at. */
  predicate Answered(flush: Flush, answers: set<Answer>) {
    !flush.stage.Asking? ==> |flush.rows| > 0 && Answer(flush.rows[0], flush.stage.receipt) in answers
  }

  predicate FlushesOk(flushes: map<nat, Flush>, answers: set<Answer>) {
    forall t :: t in flushes ==> Answered(flushes[t], answers)
  }

  /** What has left the outbox is known to the server, with exactly this content. */
  predicate NothingLost(a: Account, enqueued: map<Uuid, Envelope>, outbox: map<Uuid, Envelope>) {
    forall id :: id in enqueued && id !in outbox ==> Registered(a, enqueued[id])
  }

  ghost predicate UploadOk(w: World) {
    && Inv(w.server)
    && RowsMine(w.enqueued, w.outbox, w.requests, w.flushes)
    && AnswersOk(w.server, w.answers)
    && FlushesOk(w.flushes, w.answers)
    && NothingLost(w.server, w.enqueued, w.outbox)
  }

  /** A receipt once true stays true: registrations are never altered. */
  lemma ServerMoveKeepsOk(w: World, b: Account)
    requires UploadOk(w) && Follows(w.server, b)
    ensures AnswersOk(b, w.answers) && NothingLost(b, w.enqueued, w.outbox) && Inv(b)
  {
    hide Inv, RowsMine, FlushesOk;
    RegistrationsAreKept(w.server, b);
    forall x | x in w.answers ensures AnswerOk(b, x) {
      assert AnswerOk(w.server, x);
      assert Evolution.IdEvolves(w.server, b, x.env.id);
    }
  }

  lemma ServerAfter(w: World, m: Move)
    requires UploadOk(w)
    ensures Follows(w.server, Do(w, m).server)
  {
    FollowsItself(w.server);
    match m
    case Others(action) => StepFollows(w.server, action);
    case Deliver(env) => CreateFollows(w.server, w.device, env);
    case _ =>
  }

  lemma RowsStayMine(w: World, m: Move)
    requires RowsMine(w.enqueued, w.outbox, w.requests, w.flushes)
    ensures var v := Do(w, m); RowsMine(v.enqueued, v.outbox, v.requests, v.flushes)
  {
    hide Step, CreateStep, Fetched, Rewritten, Cached, AllMine;
    if Enabled(w, m) {
      match m
      case Start(t, rows) => assert AllMine(w.enqueued, rows) by { ReadRowsMine(w.enqueued, w.outbox, rows); }
      case Send(t) => RestMine(w.enqueued, w.flushes[t].rows);
      case WriteItem(t) => RestMine(w.enqueued, w.flushes[t].rows);
      case Queue(env) => OneMoreMine(w, env);
      case _ =>
    }
  }

  lemma ReadRowsMine(enqueued: map<Uuid, Envelope>, outbox: map<Uuid, Envelope>, rows: seq<Envelope>)
    requires forall id :: id in outbox ==> Mine(enqueued, outbox[id])
    requires forall i :: 0 <= i < |rows| ==> rows[i].id in outbox && rows[i] == outbox[rows[i].id]
    ensures AllMine(enqueued, rows)
  {
  }

  lemma RestMine(enqueued: map<Uuid, Envelope>, rows: seq<Envelope>)
    requires AllMine(enqueued, rows) && |rows| > 0
    ensures Mine(enqueued, rows[0]) && AllMine(enqueued, rows[1..])
  {
  }

  lemma OneMoreMine(w: World, env: Envelope)
    requires RowsMine(w.enqueued, w.outbox, w.requests, w.flushes) && env.id !in w.enqueued
    ensures RowsMine(w.enqueued[env.id := env], w.outbox[env.id := env], w.requests, w.flushes)
  {
  }

  lemma AnswersStayOk(w: World, m: Move)
    requires UploadOk(w)
    ensures AnswersOk(Do(w, m).server, Do(w, m).answers)
  {
    hide Inv, Evolution.Evolves, Step, CreateStep, Fetched, RowsMine;
    ServerAfter(w, m);
    ServerMoveKeepsOk(w, Do(w, m).server);
    if m.Deliver? {
      CreateRegisters(w.server, w.device, m.env);
    }
  }

  lemma FlushesStayOk(w: World, m: Move)
    requires FlushesOk(w.flushes, w.answers)
    ensures FlushesOk(Do(w, m).flushes, Do(w, m).answers)
  {
    hide Step, CreateStep, Fetched;
  }

  lemma NothingGetsLost(w: World, m: Move)
    requires UploadOk(w)
    ensures NothingLost(Do(w, m).server, Do(w, m).enqueued, Do(w, m).outbox)
  {
    hide Inv, Evolution.Evolves, Step, CreateStep, Fetched;
    ServerAfter(w, m);
    ServerMoveKeepsOk(w, Do(w, m).server);
    if m.Remove? && Enabled(w, m) {
      var flush := w.flushes[m.t];
      assert Answered(flush, w.answers) && AllMine(w.enqueued, flush.rows);
      assert Mine(w.enqueued, flush.rows[0]) && AnswerOk(w.server, Answer(flush.rows[0], flush.stage.receipt));
    }
  }

  lemma MoveKeepsOk(w: World, m: Move)
    requires UploadOk(w)
    ensures UploadOk(Do(w, m))
  {
    hide Inv, RowsMine, AnswersOk, FlushesOk, NothingLost, Do;
    ServerAfter(w, m);
    RowsStayMine(w, m);
    AnswersStayOk(w, m);
    FlushesStayOk(w, m);
    NothingGetsLost(w, m);
  }

  lemma {:induction false} MovesKeepOk(w: World, moves: seq<Move>)
    requires UploadOk(w)
    ensures UploadOk(DoAll(w, moves))
  {
    if |moves| > 0 {
      MovesKeepOk(w, moves[..|moves| - 1]);
      MoveKeepsOk(DoAll(w, moves[..|moves| - 1]), moves[|moves| - 1]);
    }
  }

  // ----- exactly once -----

  function Creations(log: seq<Event>, id: Uuid): nat {
    if |log| == 0 then 0
    else
      var newest := log[|log| - 1];
      Creations(log[..|log| - 1], id) + (if newest.clipId == id && newest.kind == Created then 1 else 0)
  }

  lemma {:induction false} CreatedOnce(log: seq<Event>, id: Uuid)
    requires Replay(log).Some?
    ensures Creations(log, id) == if id in Replay(log).value then 1 else 0
  {
    if |log| > 0 {
      CreatedOnce(log[..|log| - 1], id);
    }
  }

  ghost predicate Untouched(w: World) {
    && Reachable(w.server) && w.outbox == map[] && w.flushes == map[]
    && w.requests == {} && w.answers == {} && w.enqueued == map[]
  }

  /**
   * Whatever is lost, late, doubled or overlapping: every envelope copied here has at most one
   * clip.created event, and once its row is gone exactly one, under exactly this content.
   */
  lemma UploadedExactlyOnce(w: World, moves: seq<Move>, id: Uuid)
    requires Untouched(w) && id in DoAll(w, moves).enqueued
    ensures var v := DoAll(w, moves);
      && Creations(v.server.log, id) <= 1
      && (id in v.outbox ==> v.outbox[id] == v.enqueued[id])
      && (id !in v.outbox ==> Registered(v.server, v.enqueued[id]) && Creations(v.server.log, id) == 1)
  {
    ReachableIsOk(w.server);
    MovesKeepOk(w, moves);
    CreatedOnce(DoAll(w, moves).server.log, id);
  }

  /** All answers to one envelope carry the same receipt, however often it was sent. */
  lemma AnswersAgree(w: World, moves: seq<Move>, env: Envelope, r: Receipt, s: Receipt)
    requires Untouched(w)
    requires Answer(env, r) in DoAll(w, moves).answers && Answer(env, s) in DoAll(w, moves).answers
    ensures r == s && Registered(DoAll(w, moves).server, env)
  {
    ReachableIsOk(w.server);
    MovesKeepOk(w, moves);
    assert AnswerOk(DoAll(w, moves).server, Answer(env, r)) && AnswerOk(DoAll(w, moves).server, Answer(env, s));
  }

  // ----- the cache under overlap -----

  /** A clip at version 1 has never been in the trash. */
  lemma {:induction false} FirstVersionIsLive(log: seq<Event>, id: Uuid)
    requires Replay(log).Some? && id in Replay(log).value && Replay(log).value[id].version == 1
    ensures Replay(log).value[id].phase == Live && Replay(log).value[id].expiresAt == None
  {
    var front := log[..|log| - 1];
    if id in Replay(front).value {
      VersionsArePositive(front, id);
      if log[|log| - 1].clipId != id {
        FirstVersionIsLive(front, id);
      }
    }
  }

  lemma {:induction false} VersionsArePositive(log: seq<Event>, id: Uuid)
    requires Replay(log).Some? && id in Replay(log).value
    ensures Replay(log).value[id].version >= 1
  {
    var front := log[..|log| - 1];
    if id in Replay(front).value {
      VersionsArePositive(front, id);
    }
  }

  lemma FirstRowIsLive(a: Account, id: Uuid)
    requires LogIsState(a) && RowsOk(a) && id in a.clips && a.clips[id].version == 1
    ensures a.clips[id].status == Active && a.clips[id].expiresAt == None
  {
    assert RowOk(a, id);
    assert View(a)[id] == LifeOf(a, id);
    FirstVersionIsLive(a.log, id);
  }

  /**
   * Writing the item back leaves the cache in agreement with the server exactly when the clip is still at
   * version 1 and the item was read as active; if another device has touched the clip in the meantime, or a pull
   * in between has stored newer contents, the older version comes back.
   */
  lemma RewriteAgreesIff(w: World, moves: seq<Move>, t: nat)
    requires Untouched(w) && Enabled(DoAll(w, moves), WriteItem(t))
    requires var v := DoAll(w, moves);
      v.flushes[t].rows[0].id in v.server.clips && v.flushes[t].stage.item.Some?
    ensures var v := DoAll(w, moves);
      var id, item := v.flushes[t].rows[0].id, v.flushes[t].stage.item.value;
      (Agrees(v.server, Do(v, WriteItem(t)).cache, id)
       <==> v.server.clips[id].version == 1 && item.status == Active && item.expiresAt == None)
  {
    ReachableIsOk(w.server);
    MovesKeepOk(w, moves);
    WriteAgreesIff(DoAll(w, moves), t);
  }

  lemma WriteAgreesIff(v: World, t: nat)
    requires UploadOk(v) && Enabled(v, WriteItem(t))
    requires v.flushes[t].rows[0].id in v.server.clips && v.flushes[t].stage.item.Some?
    ensures var id, item := v.flushes[t].rows[0].id, v.flushes[t].stage.item.value;
      (Agrees(v.server, Do(v, WriteItem(t)).cache, id)
       <==> v.server.clips[id].version == 1 && item.status == Active && item.expiresAt == None)
  {
    hide LogOk, RetentionOk, QuotaOk, SnapshotsOk, NothingLost, LogIsState;
    var env, receipt := v.flushes[t].rows[0], v.flushes[t].stage.receipt;
    assert Answered(v.flushes[t], v.answers) && AnswerOk(v.server, Answer(env, receipt));
    assert RowOk(v.server, env.id);
    if v.server.clips[env.id].version == 1 {
      FirstRowIsLive(v.server, env.id);
    }
  }

  // ----- the overlap does happen -----

  ghost predicate Reaches(w: World, v: World) {
    exists moves :: DoAll(w, moves) == v
  }

  lemma ReachesItself(w: World)
    ensures Reaches(w, w)
  {
    assert DoAll(w, []) == w;
  }

  lemma ReachesNext(w: World, v: World, m: Move)
    requires Reaches(w, v)
    ensures Reaches(w, Do(v, m))
  {
    var moves :| DoAll(w, moves) == v;
    assert (moves + [m])[..|moves|] == moves;
    assert DoAll(w, moves + [m]) == Do(v, m);
  }

  predicate Uploadable(a: Account, device: Uuid, env: Envelope) {
    && env.id !in a.clipIds && Admit(a, device, env) == None
    && WithinQuota(a, env) && RowChecks(env)
  }

  function Newcomer(a: Account, device: Uuid): World {
    World(a, device, map[], map[], map[], {}, {}, map[])
  }

  /** A copy is queued and shown, and its flush sends the request. */
  lemma RequestUnderWay(a: Account, device: Uuid, env: Envelope)
    ensures var w := Newcomer(a, device);
      Reaches(w, World(a, device, map[env.id := env], map[env.id := Item(Active, 1, 0, None)],
                       map[0 := Flush([env], Asking)], {env}, {}, map[env.id := env]))
  {
    hide DoAll, Reaches, Step, CreateStep, Fetched;
    var w0 := Newcomer(a, device);
    var item := Item(Active, 1, 0, None);
    ReachesItself(w0);
    ReachesNext(w0, w0, Queue(env));
    var w1 := World(a, device, map[env.id := env], map[], map[], {}, {}, map[env.id := env]);
    assert Do(w0, Queue(env)) == w1;
    ReachesNext(w0, w1, Show(env.id));
    var w2 := w1.(cache := map[env.id := item]);
    assert Do(w1, Show(env.id)) == w2;
    ReachesNext(w0, w2, Start(0, [env]));
    var w3 := w2.(flushes := map[0 := Flush([env], Asking)]);
    assert Do(w2, Start(0, [env])) == w3;
    ReachesNext(w0, w3, Send(0));
    assert Do(w3, Send(0)) == w3.(requests := {env});
  }

  lemma FirstCreateSucceeds(a: Account, device: Uuid, env: Envelope)
    requires Uploadable(a, device, env)
    ensures CreateStep(a, device, env).1 == Ok(CreateResult(CreateReceipt(env.id, a.nextSeq + 1, a.clock), true))
  {
  }

  /** The server answers, the flush takes the answer and drops the row; the cached item is still to be rewritten. */
  lemma UploadAcknowledged(a: Account, device: Uuid, env: Envelope)
    requires Uploadable(a, device, env)
    ensures var b, receipt := CreateStep(a, device, env).0, CreateReceipt(env.id, a.nextSeq + 1, a.clock);
      Reaches(Newcomer(a, device),
              World(b, device, map[], map[env.id := Item(Active, 1, 0, None)],
                    map[0 := Flush([env], Dequeued(receipt))], {env}, {Answer(env, receipt)}, map[env.id := env]))
  {
    hide DoAll, Reaches, Step, CreateStep, Fetched, Uploadable, Rewritten, Cached;
    FirstCreateSucceeds(a, device, env);
    var w0, b := Newcomer(a, device), CreateStep(a, device, env).0;
    var receipt := CreateReceipt(env.id, a.nextSeq + 1, a.clock);
    RequestUnderWay(a, device, env);
    var w4 := World(a, device, map[env.id := env], map[env.id := Item(Active, 1, 0, None)],
                    map[0 := Flush([env], Asking)], {env}, {}, map[env.id := env]);
    ReachesNext(w0, w4, Deliver(env));
    var w5 := w4.(server := b, answers := {Answer(env, receipt)});
    assert Do(w4, Deliver(env)) == w5;
    ReachesNext(w0, w5, Receive(0, receipt));
    var w6 := w5.(flushes := map[0 := Flush([env], Told(receipt))]);
    assert Do(w5, Receive(0, receipt)) == w6;
    ReachesNext(w0, w6, Remove(0));
    assert Do(w6, Remove(0)) == w6.(outbox := map[], flushes := map[0 := Flush([env], Dequeued(receipt))]);
  }

  /** Another device can trash the fresh clip at once. */
  lemma FreshClipCanBeTrashed(a: Account, device: Uuid, env: Envelope, op: Uuid)
    requires Uploadable(a, device, env) && op !in a.receipts
    ensures var c := MutateStep(CreateStep(a, device, env).0, env.id, op, TrashOp, 1, false).0;
      && Visible(c, env.id) && c.clips[env.id].version == 2 && c.clips[env.id].status == Trash
      && 0 < c.clips[env.id].lastSeq <= c.nextSeq
  {
  }

  /**
   * From any account that accepts the copy there is a run in which the flush has read the cached item, the pull
   * then stores the trashed clip at version 2, and the flush writes the active version 1 back over it, with
   * nothing left to correct it.
   */
  lemma OverlapRevertsVersion(a: Account, device: Uuid, env: Envelope, op: Uuid)
    requires Uploadable(a, device, env) && op !in a.receipts
    ensures exists v :: (Reaches(Newcomer(a, device), v) && v.outbox == map[]
      && Visible(v.server, env.id) && v.server.clips[env.id].version == 2 && v.server.clips[env.id].status == Trash
      && env.id in v.cache && v.cache[env.id].version == 1 && v.cache[env.id].status == Active
      && !Synced(v.server, v.cache, v.server.nextSeq, 0))
  {
    hide DoAll, Reaches, CreateStep, MutateStep, Visible, Uploadable, Synced, Fetched, Rewritten;
    var w0, b := Newcomer(a, device), CreateStep(a, device, env).0;
    var receipt := CreateReceipt(env.id, a.nextSeq + 1, a.clock);
    UploadAcknowledged(a, device, env);
    FreshClipCanBeTrashed(a, device, env, op);
    var shown := Item(Active, 1, 0, None);
    var w7 := World(b, device, map[], map[env.id := shown],
                    map[0 := Flush([env], Dequeued(receipt))], {env}, {Answer(env, receipt)}, map[env.id := env]);
    ReachesNext(w0, w7, ReadItem(0));
    var w8 := w7.(flushes := map[0 := Flush([env], Holding(receipt, Some(shown)))]);
    assert Do(w7, ReadItem(0)) == w8;
    var c := MutateStep(b, env.id, op, TrashOp, 1, false).0;
    ReachesNext(w0, w8, Others(Mutate(env.id, op, TrashOp, 1, false)));
    var w9 := w8.(server := c);
    assert Do(w8, Others(Mutate(env.id, op, TrashOp, 1, false))) == w9;
    ReachesNext(w0, w9, Fetch(env.id));
    ReachesNext(w0, Do(w9, Fetch(env.id)), WriteItem(0));
    LateWrite(w9, env, receipt, shown);
    assert Reaches(w0, Do(Do(w9, Fetch(env.id)), WriteItem(0)));
  }

  lemma LateWrite(w: World, env: Envelope, receipt: Receipt, shown: Item)
    requires w.flushes == map[0 := Flush([env], Holding(receipt, Some(shown)))]
    requires receipt.id == env.id && receipt.version == 1 && shown.status == Active
    requires Visible(w.server, env.id) && w.server.clips[env.id].version == 2
    requires 0 < w.server.clips[env.id].lastSeq <= w.server.nextSeq
    ensures var v := Do(Do(w, Fetch(env.id)), WriteItem(0));
      && v.outbox == w.outbox && v.server == w.server
      && env.id in v.cache && v.cache[env.id].version == 1 && v.cache[env.id].status == Active
      && !Synced(v.server, v.cache, v.server.nextSeq, 0)
  {
    hide Fetched;
    var v := Do(Do(w, Fetch(env.id)), WriteItem(0));
    assert Owed(v.server.clips[env.id], v.server.nextSeq, 0) && !Agrees(v.server, v.cache, env.id);
  }
}
