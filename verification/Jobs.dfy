/** The expiry job over all accounts: rounds of at most fifty users, one batch for each. */
module Jobs {
  import opened Domain
  import opened Accounts
  import opened Invariant
  import opened Evolution
  import opened Expiry
  import opened Runs
  import opened Server
  import Canon

  const USERS_PER_ROUND := 50

  type Ledger = map<Uuid, Account>

  // ----- one account -----

  predicate Buried(a: Account, id: Uuid) {
    id !in a.clips && id in a.clipIds && a.clipIds[id].tomb.Some?
  }

  /** The clips that were first in line in `a` are gone in `b`. */
  ghost predicate Served(a: Account, b: Account) {
    forall id :: id in BatchIds(a) ==> Buried(b, id)
  }

  predicate NoTrashing(actions: seq<Action>) {
    forall i :: 0 <= i < |actions| ==> !(actions[i].Mutate? && actions[i].kind == TrashOp)
  }

  /** Whatever lies in the trash now lay there before, as it is. */
  ghost predicate OnlyOldTrash(a: Account, b: Account) {
    forall id :: id in b.clips && b.clips[id].status == Trash ==> id in a.clips && a.clips[id] == b.clips[id]
  }

  lemma BatchTrashesNothing(a: Account)
    requires RowsOk(a)
    ensures OnlyOldTrash(a, PurgeBatch(a))
  {
    hide RowsOk, PurgedIds, PurgedLog, FirstInOrder, DistinctExpired;
    BatchIsExact(a);
  }

  lemma StepTrashesNothing(a: Account, action: Action)
    requires RowsOk(a) && NoTrashing([action])
    ensures OnlyOldTrash(a, Step(a, action))
  {
    hide RowsOk, PurgeBatch;
    assert [action][0] == action;
    match action
    case PurgeExpired => BatchTrashesNothing(a);
    case Mutate(id, op, kind, expected, skewed) => MutateTrashesNothing(a, id, op, kind, expected, skewed);
    case _ =>
  }

  lemma MutateTrashesNothing(a: Account, id: Uuid, op: Uuid, kind: MutationKind, expected: int, skewed: bool)
    requires kind != TrashOp
    ensures OnlyOldTrash(a, MutateStep(a, id, op, kind, expected, skewed).0)
  {
  }

  lemma OldTrashTransitively(a: Account, b: Account, c: Account)
    requires OnlyOldTrash(a, b) && OnlyOldTrash(b, c)
    ensures OnlyOldTrash(a, c)
  {
  }

  lemma {:induction false} RunTrashesNothing(a: Account, actions: seq<Action>)
    requires Inv(a) && NoTrashing(actions)
    ensures OnlyOldTrash(a, Run(a, actions))
  {
    hide Inv, Evolves, Step, OnlyOldTrash;
    if |actions| == 0 {
      TrashIsItself(a);
    } else {
      var front, last := actions[..|actions| - 1], actions[|actions| - 1];
      RunTrashesNothing(a, front);
      RunFollows(a, front);
      InvHasRows(Run(a, front));
      assert NoTrashing([last]);
      StepTrashesNothing(Run(a, front), last);
      OldTrashTransitively(a, Run(a, front), Run(a, actions));
    }
  }

  lemma TrashIsItself(a: Account)
    ensures OnlyOldTrash(a, a)
  {
  }

  // ----- who comes first stays first -----

  lemma SoonerIsAsymmetric(clips: map<Uuid, Clip>, x: Uuid, y: Uuid)
    requires x in clips && y in clips && Sooner(clips, x, y)
    ensures x != y && !Sooner(clips, y, x)
  {
  }

  function Elements(ids: seq<Uuid>): (s: set<Uuid>)
    ensures |s| <= |ids| && forall x :: x in s <==> x in ids
  {
    if |ids| == 0 then {} else Elements(ids[..|ids| - 1]) + {ids[|ids| - 1]}
  }

  /** A full batch that leaves out one of the first in line would hold one clip too many. */
  lemma NoRoomForOthers(p: seq<Uuid>, q: seq<Uuid>, id: Uuid)
    requires |p| <= |q| && id in p && id !in q
    requires forall i, j :: 0 <= i < j < |q| ==> q[i] != q[j]
    ensures exists i :: 0 <= i < |q| && q[i] !in p
  {
    if forall i :: 0 <= i < |q| ==> q[i] in p {
      var s := Elements(p);
      forall i | 0 <= i < |q| ensures q[i] in s - {id} {
        assert q[i] in q;
      }
      DistinctCount(q, s - {id});
    }
  }

  lemma DistinctIds(a: Account, ids: seq<Uuid>)
    requires DistinctExpired(a, ids)
    ensures forall i, j :: 0 <= i < j < |ids| ==> ids[i] != ids[j]
    ensures forall i :: 0 <= i < |ids| ==> ids[i] in Expired(a)
  {
  }

  /** Nothing new is trashed, so what is not purged meanwhile keeps its place in line, however late the batch comes. */
  lemma FirstStayFirst(a: Account, b: Account, id: Uuid)
    requires RowsOk(a) && RowsOk(b) && OnlyOldTrash(a, b) && a.clock <= b.clock
    requires id in BatchIds(a) && id in b.clips && id in a.clips && b.clips[id] == a.clips[id]
    ensures id in BatchIds(b)
  {
    hide RowsOk, BatchIds, PurgedExactly, FirstInOrder, OnlyOldTrash;
    var p, q := BatchIds(a), BatchIds(b);
    if id !in q {
      BatchIsExact(a);
      BatchIsExact(b);
      DistinctIds(a, p);
      DistinctIds(b, q);
      assert id in Expired(a) && id in Expired(b);
      DistinctCount(q, Expired(b));
      NoRoomForOthers(p, q, id);
      var i :| 0 <= i < |q| && q[i] !in p;
      OnlyFirstPrecede(a, b, q[i], id);
    }
  }

  /** Whatever comes before one of the first in line is itself one of them. */
  lemma OnlyFirstPrecede(a: Account, b: Account, x: Uuid, id: Uuid)
    requires OnlyOldTrash(a, b) && RowsOk(a) && RowsOk(b) && a.clock <= b.clock
    requires id in BatchIds(a) && id in a.clips && id in b.clips && b.clips[id] == a.clips[id]
    requires x in BatchIds(b) && id !in BatchIds(b)
    ensures x in BatchIds(a)
  {
    hide RowsOk;
    BatchIsExact(a);
    BatchIsExact(b);
    assert id in Expired(a) && id in Expired(b) && x in Expired(b);
    assert Sooner(b.clips, x, id);
    assert x in a.clips && a.clips[x] == b.clips[x];
    SoonerIsAsymmetric(a.clips, x, id);
  }

  lemma BatchServes(a: Account)
    requires RowsOk(a)
    ensures Served(a, PurgeBatch(a))
  {
    hide RowsOk;
    BatchIsExact(a);
    forall id | id in BatchIds(a) ensures Buried(PurgeBatch(a), id) {
      var i :| 0 <= i < |BatchIds(a)| && BatchIds(a)[i] == id;
    }
  }

  lemma ServedPersists(a: Account, b: Account, c: Account)
    requires Served(a, b) && Follows(b, c)
    ensures Served(a, c)
  {
    hide LogOk, RetentionOk, LogIsState, QuotaOk, SnapshotsOk;
    forall id | id in BatchIds(a) ensures Buried(c, id) {
      assert IdEvolves(b, c, id);
      assert id in c.clips ==> RowOk(c, id);
    }
  }

  /** Expired trash is one-way: it is the same row or purged. */
  lemma ExpiredOrBuried(a: Account, b: Account, id: Uuid)
    requires Inv(a) && Follows(a, b) && id in Expired(a)
    ensures if id in b.clips then b.clips[id] == a.clips[id] && id in Expired(b) else Buried(b, id)
  {
    hide LogOk, RetentionOk, LogIsState, QuotaOk, SnapshotsOk;
    assert RowOk(a, id) && IdEvolves(a, b, id);
  }

  /** A batch buries everything that was first in line at any time before. */
  lemma ServedThrough(a: Account, b: Account, c: Account)
    requires Inv(a) && Follows(a, b) && OnlyOldTrash(a, b) && Follows(b, c) && Served(b, c)
    ensures Served(a, c)
  {
    hide Inv, Evolves, OnlyOldTrash, BatchIds;
    InvHasRows(a);
    InvHasRows(b);
    forall id | id in BatchIds(a) ensures Buried(c, id) {
      FirstAreExpired(a, id);
      ExpiredOrBuried(a, b, id);
      ClockMovesOn(a, b);
      if id in b.clips {
        FirstStayFirst(a, b, id);
      } else {
        BuriedStays(b, c, id);
      }
    }
  }

  lemma FirstAreExpired(a: Account, id: Uuid)
    requires RowsOk(a) && id in BatchIds(a)
    ensures id in Expired(a)
  {
    BatchIsExact(a);
  }

  lemma ClockMovesOn(a: Account, b: Account)
    requires Follows(a, b)
    ensures a.clock <= b.clock
  {
  }

  lemma BuriedStays(a: Account, b: Account, id: Uuid)
    requires Follows(a, b) && Buried(a, id)
    ensures Buried(b, id)
  {
    hide LogOk, RetentionOk, LogIsState, QuotaOk, SnapshotsOk;
    assert IdEvolves(a, b, id);
    assert id in b.clips ==> RowOk(b, id);
  }

  lemma NobodyInLine(a: Account, b: Account)
    requires Inv(a) && Follows(a, b) && Expired(b) == {}
    ensures Served(a, b)
  {
    hide Inv, Evolves, BatchIds;
    InvHasRows(a);
    forall id | id in BatchIds(a) ensures Buried(b, id) {
      FirstAreExpired(a, id);
      ExpiredOrBuried(a, b, id);
    }
  }

  // ----- how much one batch clears -----

  /** What a batch leaves: everything expired but the first hundred. */
  lemma BatchLeavesRest(a: Account)
    requires RowsOk(a)
    ensures |Expired(PurgeBatch(a))| == |Expired(a)| - Min(100, |Expired(a)|)
    ensures Expired(PurgeBatch(a)) == {} <==> |Expired(a)| <= 100
  {
    hide RowsOk, FirstInOrder, PurgedIds, IsExpired;
    var ids, b := BatchIds(a), PurgeBatch(a);
    BatchIsExact(a);
    DistinctIds(a, ids);
    var gone := Elements(ids);
    assert Expired(b) == Expired(a) - gone;
    assert gone <= Expired(a);
    DistinctCount(ids, gone);
  }

  /** Of an account with no more expired clips than a batch holds, nothing that was expired is left. */
  lemma SmallLineIsCleared(a: Account, b: Account)
    requires RowsOk(a) && |Expired(a)| <= BATCH && Served(a, b)
    ensures forall id :: id in Expired(a) ==> Buried(b, id)
  {
    hide RowsOk, FirstInOrder, PurgedExactly;
    BatchIsExact(a);
    DistinctIds(a, BatchIds(a));
    DistinctCount(BatchIds(a), Expired(a));
  }

  lemma NothingToPurge(a: Account)
    requires Expired(a) == {}
    ensures PurgeBatch(a) == a
  {
  }

  // ----- all accounts -----

  ghost predicate AllInv(ledger: Ledger) {
    forall u :: u in ledger ==> Inv(ledger[u])
  }

  /** Every account has moved on, and nothing was put into its trash. */
  ghost predicate MovedOn(start: Ledger, now: Ledger) {
    && start.Keys == now.Keys
    && forall u :: u in start ==> Follows(start[u], now[u]) && OnlyOldTrash(start[u], now[u])
  }

  function TrashRows(ledger: Ledger): set<(Uuid, Uuid)> {
    set u, id | u in ledger && id in ledger[u].clips && ledger[u].clips[id].status == Trash :: (u, id)
  }

  function WithExpired(ledger: Ledger): set<Uuid> {
    set u | u in ledger && Expired(ledger[u]) != {}
  }

  lemma FewerThan(s: set<Uuid>, ids: seq<Uuid>)
    requires forall x :: x in s ==> x in ids
    ensures |s| <= |ids|
  {
    SubsetIsSmaller(s, Elements(ids));
  }

  lemma {:induction false} SubsetIsSmaller(s: set<Uuid>, t: set<Uuid>)
    requires s <= t
    ensures |s| <= |t|
  {
    if s != {} {
      var x :| x in s;
      SubsetIsSmaller(s - {x}, t - {x});
    }
  }

  lemma MovedNowhere(ledger: Ledger)
    requires AllInv(ledger)
    ensures MovedOn(ledger, ledger)
  {
    hide Inv, Evolves;
    forall u | u in ledger ensures Follows(ledger[u], ledger[u]) {
      FollowsItself(ledger[u]);
    }
  }

  lemma MovedOnTransitively(a: Ledger, b: Ledger, c: Ledger)
    requires AllInv(a) && MovedOn(a, b) && MovedOn(b, c)
    ensures MovedOn(a, c)
  {
    hide Inv, Evolves, OnlyOldTrash;
    forall u | u in a ensures Follows(a[u], c[u]) && OnlyOldTrash(a[u], c[u]) {
      FollowsTransitively(a[u], b[u], c[u]);
      OldTrashTransitively(a[u], b[u], c[u]);
    }
  }

  lemma MovedOnHolds(start: Ledger, now: Ledger)
    requires MovedOn(start, now)
    ensures AllInv(now) && TrashRows(now) <= TrashRows(start)
  {
    hide Inv, Evolves;
  }

  ghost function AfterBatch(now: Ledger, u: Uuid): (b: Ledger)
    requires u in now
    ensures b.Keys == now.Keys
  {
    now[u := PurgeBatch(now[u])]
  }

  lemma BatchMovesOn(now: Ledger, u: Uuid)
    requires AllInv(now) && u in now
    ensures MovedOn(now, AfterBatch(now, u)) && Served(now[u], AfterBatch(now, u)[u])
  {
    hide Inv, Evolves, Served, OnlyOldTrash, PurgeBatch;
    MovedNowhere(now);
    InvHasRows(now[u]);
    StepFollows(now[u], Action.PurgeExpired);
    BatchTrashesNothing(now[u]);
    BatchServes(now[u]);
  }

  /** Serving a user that had expired trash takes a row away. */
  lemma ServingTakesTrash(start: Ledger, now: Ledger, u: Uuid)
    requires AllInv(start) && MovedOn(start, now) && u in start && u in now
    requires u in WithExpired(start) && Served(start[u], now[u])
    ensures TrashRows(now) < TrashRows(start)
  {
    hide Inv, Evolves;
    MovedOnHolds(start, now);
    InvHasRows(start[u]);
    BatchIsExact(start[u]);
    var id := BatchIds(start[u])[0];
    assert id in BatchIds(start[u]);
    FirstAreExpired(start[u], id);
    assert (u, id) in TrashRows(start) && (u, id) !in TrashRows(now);
  }

  /** What other requests and jobs commit before the next statement, account by account. */
  type Interval = map<Uuid, seq<Action>>

  predicate Peaceful(turns: seq<Interval>) {
    forall i, u :: 0 <= i < |turns| && u in turns[i] ==> NoTrashing(turns[i][u])
  }

  ghost function ActedOn(a: Account, turn: Interval, u: Uuid): Account {
    if u in turn then Run(a, turn[u]) else a
  }

  lemma OthersMoveOn(before: Ledger, turn: Interval, after: Ledger)
    requires AllInv(before) && before.Keys == after.Keys && forall u :: u in turn ==> NoTrashing(turn[u])
    requires forall u :: u in before ==> after[u] == ActedOn(before[u], turn, u)
    ensures MovedOn(before, after)
  {
    hide Inv, Evolves, OnlyOldTrash, Run;
    forall u | u in before ensures Follows(before[u], after[u]) && OnlyOldTrash(before[u], after[u]) {
      if u in turn {
        RunFollows(before[u], turn[u]);
        RunTrashesNothing(before[u], turn[u]);
      } else {
        FollowsItself(before[u]);
        TrashIsItself(before[u]);
      }
    }
  }

  class Job {
    var ledger: Ledger
    /** What happens before each next statement; nothing once the list is used up. */
    var turns: seq<Interval>

    constructor (ledger: Ledger, turns: seq<Interval>)
      ensures this.ledger == ledger && this.turns == turns
    {
      this.ledger, this.turns := ledger, turns;
    }

    /** Creates, restores, purges, retention, time: everything but a trash may come in between. */
    method OthersAct()
      requires AllInv(ledger) && Peaceful(turns)
      modifies this
      ensures AllInv(ledger) && Peaceful(turns) && MovedOn(old(ledger), ledger)
      ensures old(turns) == [] ==> turns == [] && ledger == old(ledger)
    {
      hide Inv, Evolves, OnlyOldTrash, Run;
      MovedNowhere(ledger);
      if turns == [] {
        return;
      }
      var turn := turns[0];
      ledger := Perform(ledger, turn);
      turns := turns[1..];
      OthersMoveOn(old(ledger), turn, ledger);
      MovedOnHolds(old(ledger), ledger);
    }

    static method Perform(before: Ledger, turn: Interval) returns (after: Ledger)
      requires AllInv(before)
      ensures after.Keys == before.Keys && forall u :: u in before ==> after[u] == ActedOn(before[u], turn, u)
    {
      hide Inv, Evolves, Run;
      after := before;
      var rest := before.Keys;
      while rest != {}
        invariant rest <= before.Keys && after.Keys == before.Keys
        invariant forall u :: u in before ==> after[u] == if u in rest then before[u] else ActedOn(before[u], turn, u)
        decreases |rest|
      {
        var u :| u in rest;
        if u in turn {
          var a := PerformAll(before[u], turn[u]);
          after := after[u := a];
        }
        rest := rest - {u};
      }
    }

    static method PerformAll(a: Account, actions: seq<Action>) returns (b: Account)
      requires Inv(a)
      ensures b == Run(a, actions)
    {
      hide Inv, Evolves, Run;
      var store := new Store(a.cfg, 0, 0);
      store.db := a;
      store.PerformAll(actions);
      return store.db;
    }

    /** SELECT DISTINCT user_id ... LIMIT 50, in no particular order. */
    method ExpiredUsers() returns (users: seq<Uuid>)
      ensures forall i :: 0 <= i < |users| ==> users[i] in WithExpired(ledger)
      ensures forall i, j :: 0 <= i < j < |users| ==> users[i] != users[j]
      ensures |users| <= 50
      ensures |users| < 50 ==> forall u :: u in WithExpired(ledger) ==> u in users
    {
      users := [];
      var rest := WithExpired(ledger);
      while rest != {} && |users| < USERS_PER_ROUND
        invariant forall u :: u in WithExpired(ledger) <==> u in rest || u in users
        invariant forall u :: u in users ==> u !in rest
        invariant forall i, j :: 0 <= i < j < |users| ==> users[i] != users[j]
        invariant |users| <= USERS_PER_ROUND
        decreases |rest|
      {
        var u :| u in rest;
        users, rest := users + [u], rest - {u};
      }
    }

    /**
     * While nobody trashes anything, the loop ends: every round takes trash rows away. When it does, the
     * clips that were first in line in any account at the start are purged, so an account with no more
     * expired clips than a batch holds is rid of them. Undisturbed and with fewer than fifty users to serve,
     * every account gets exactly one batch.
     */
    method PurgeExpired()
      requires AllInv(ledger) && Peaceful(turns)
      modifies this
      ensures AllInv(ledger) && MovedOn(old(ledger), ledger)
      ensures forall u :: u in ledger ==> Served(old(ledger)[u], ledger[u])
      ensures old(turns) == [] ==> |WithExpired(ledger)| < 50
      ensures old(turns) == [] && |WithExpired(old(ledger))| < 50 ==>
        forall u :: u in ledger ==> ledger[u] == PurgeBatch(old(ledger)[u])
      ensures old(turns) == [] && |WithExpired(old(ledger))| < 50 ==>
        forall u :: u in ledger ==> (Expired(ledger[u]) == {} <==> |Expired(old(ledger)[u])| <= 100)
    {
      hide Inv, Evolves, Served, OnlyOldTrash, PurgeBatch, Expired, Peaceful;
      ghost var start := ledger;
      MovedNowhere(start);
      while true
        invariant AllInv(ledger) && Peaceful(turns) && MovedOn(start, ledger)
        invariant old(turns) == [] ==> turns == []
        invariant old(turns) == [] && |WithExpired(start)| < USERS_PER_ROUND ==> ledger == start
        decreases TrashRows(ledger)
      {
        ghost var before := ledger;
        OthersAct();
        MovedOnTransitively(start, before, ledger);
        MovedOnHolds(before, ledger);
        ghost var asked := ledger;
        var users := ExpiredUsers();
        if |users| == 0 {
          MovedNowhere(asked);
          AllServed(start, asked, asked, users);
          AllBatched(asked, asked, users);
          ClearedIff(asked, ledger);
          return;
        }
        PurgeRound(users);
        MovedOnTransitively(start, asked, ledger);
        if |users| < USERS_PER_ROUND {
          AllServed(start, asked, ledger, users);
          if old(turns) == [] {
            ServedAreLeft(asked, ledger, users);
            AllBatched(asked, ledger, users);
            ClearedIff(asked, ledger);
          }
          return;
        }
        DistinctCount(users, WithExpired(asked));
      }
    }

    /** The users of one round, each in a transaction of its own. */
    method PurgeRound(users: seq<Uuid>)
      requires AllInv(ledger) && Peaceful(turns) && |users| > 0
      requires forall i :: 0 <= i < |users| ==> users[i] in WithExpired(ledger)
      requires forall i, j :: 0 <= i < j < |users| ==> users[i] != users[j]
      modifies this
      ensures AllInv(ledger) && Peaceful(turns) && MovedOn(old(ledger), ledger)
      ensures forall u :: u in users ==> u in ledger && Served(old(ledger)[u], ledger[u])
      ensures TrashRows(ledger) < old(TrashRows(ledger))
      ensures old(turns) == [] ==> turns == [] && Batched(old(ledger), ledger, users)
    {
      hide Inv, Evolves, Served, OnlyOldTrash, PurgeBatch, Expired, Follows, Peaceful, Batched;
      MovedNowhere(ledger);
      NoneBatched(ledger, users);
      for i := 0 to |users|
        invariant AllInv(ledger) && Peaceful(turns) && MovedOn(old(ledger), ledger)
        invariant forall k :: 0 <= k < i ==> Served(old(ledger)[users[k]], ledger[users[k]])
        invariant old(turns) == [] ==> turns == [] && Batched(old(ledger), ledger, users[..i])
      {
        ghost var before, u := ledger, users[i];
        OthersAct();
        ghost var acted := ledger;
        MovedOnTransitively(old(ledger), before, acted);
        BatchMovesOn(acted, u);
        assert RowsOk(ledger[u]) by { InvHasRows(ledger[u]); }
        var tx, n := Store.TxPurgeBatch(ledger[users[i]]);
        ledger := ledger[users[i] := tx];
        assert ledger == AfterBatch(acted, u);
        MovedOnTransitively(before, acted, ledger);
        MovedOnTransitively(old(ledger), acted, ledger);
        MovedOnHolds(old(ledger), ledger);
        RoundGoesOn(old(ledger), before, acted, ledger, users, i);
        if old(turns) == [] { OneMoreBatched(old(ledger), acted, users, i); }
      }
      assert users[..|users|] == users;
      ServingTakesTrash(old(ledger), ledger, users[0]);
    }
  }

  /** One batch for each of `users`, and nothing else. */
  ghost predicate Batched(start: Ledger, now: Ledger, users: seq<Uuid>) {
    && start.Keys == now.Keys
    && forall u :: u in start ==> now[u] == if u in users then PurgeBatch(start[u]) else start[u]
  }

  /** A batch leaves no account with expired trash that had none. */
  lemma ServedAreLeft(start: Ledger, now: Ledger, users: seq<Uuid>)
    requires AllInv(start) && Batched(start, now, users)
    requires forall u :: u in WithExpired(start) ==> u in users
    ensures |WithExpired(now)| <= |users|
  {
    hide Inv, PurgeBatch, Expired;
    FewerThan(WithExpired(now), users);
  }

  lemma NoneBatched(start: Ledger, users: seq<Uuid>)
    ensures Batched(start, start, users[..0])
  {
  }

  lemma OneMoreBatched(start: Ledger, now: Ledger, users: seq<Uuid>, i: nat)
    requires i < |users| && users[i] in now && Batched(start, now, users[..i])
    requires forall j :: 0 <= j < i ==> users[j] != users[i]
    ensures Batched(start, AfterBatch(now, users[i]), users[..i + 1])
  {
    hide PurgeBatch;
    assert users[..i + 1] == users[..i] + [users[i]];
  }

  /** Who was served stays served, and the next one is. */
  lemma RoundGoesOn(start: Ledger, before: Ledger, acted: Ledger, now: Ledger, users: seq<Uuid>, i: nat)
    requires start.Keys == before.Keys == acted.Keys == now.Keys
    requires i < |users| && forall k :: 0 <= k < |users| ==> users[k] in start
    requires Served(acted[users[i]], now[users[i]])
    requires forall k :: 0 <= k < i ==> Served(start[users[k]], before[users[k]])
    requires AllInv(start) && MovedOn(start, before) && MovedOn(start, acted) && MovedOn(before, now)
    requires MovedOn(acted, now)
    ensures forall k :: 0 <= k <= i ==> Served(start[users[k]], now[users[k]])
  {
    hide Inv, Evolves, Served, OnlyOldTrash;
    forall k | 0 <= k <= i ensures Served(start[users[k]], now[users[k]]) {
      var u := users[k];
      if k < i {
        ServedPersists(start[u], before[u], now[u]);
      } else {
        ServedThrough(start[u], acted[u], now[u]);
      }
    }
  }

  /** When the query has named every user with expired trash, nobody is left waiting after the round. */
  lemma AllServed(start: Ledger, asked: Ledger, now: Ledger, users: seq<Uuid>)
    requires AllInv(start) && MovedOn(start, asked) && MovedOn(asked, now)
    requires forall u :: u in WithExpired(asked) ==> u in users
    requires forall u :: u in users ==> u in asked && u in now && Served(asked[u], now[u])
    ensures forall u :: u in start && u in now ==> Served(start[u], now[u])
  {
    hide Inv, Evolves, Served, Expired, OnlyOldTrash;
    forall u | u in start && u in now ensures Served(start[u], now[u]) {
      if u in users {
        ServedThrough(start[u], asked[u], now[u]);
      } else {
        assert Expired(asked[u]) == {};
        NobodyInLine(start[u], asked[u]);
        ServedPersists(start[u], asked[u], now[u]);
      }
    }
  }

  lemma AllBatched(asked: Ledger, now: Ledger, users: seq<Uuid>)
    requires Batched(asked, now, users) && forall u :: u in WithExpired(asked) ==> u in users
    ensures forall u :: u in asked && u in now ==> now[u] == PurgeBatch(asked[u])
  {
    hide PurgeBatch, Expired;
    forall u | u in asked && u in now ensures now[u] == PurgeBatch(asked[u]) {
      if u !in users {
        assert Expired(asked[u]) == {};
        NothingToPurge(asked[u]);
      }
    }
  }

  lemma ClearedIff(start: Ledger, now: Ledger)
    requires AllInv(start) && forall u :: u in start && u in now ==> now[u] == PurgeBatch(start[u])
    ensures forall u :: u in start && u in now ==> (Expired(now[u]) == {} <==> |Expired(start[u])| <= BATCH)
  {
    hide Inv, Expired, PurgeBatch;
    forall u | u in start && u in now ensures Expired(now[u]) == {} <==> |Expired(start[u])| <= BATCH {
      InvHasRows(start[u]);
      BatchLeavesRest(start[u]);
    }
  }

  // ----- one clip too many -----

  function CrowdEnv(id: Uuid): Envelope {
    Envelope(id, 1, 2, 1, 1, "text/plain", Canon.Zeros(12), Canon.Zeros(17), "live")
  }

  /** `k` clips, numbered from 1, all trashed at time 0. */
  ghost predicate Crowd(a: Account, n: nat, k: nat) {
    && a.cfg == Config(n, 17 * n) && a.clock == 0 && a.vault == Some(Vault(1, 1)) && a.devices == map[2 := None]
    && a.itemCount == k && a.ciphertextBytes == 17 * k
    && (forall id :: id in a.clipIds <==> 1 <= id <= k)
    && (forall id :: id in a.clips <==> 1 <= id <= k)
    && (forall id :: id in a.receipts <==> 1 <= id <= k)
    && (forall id :: id in a.clips ==> a.clips[id].status == Trash && a.clips[id].expiresAt == Some(TRASH_PERIOD))
  }

  lemma ReachableNext(a: Account, action: Action)
    requires Reachable(a)
    ensures Reachable(Step(a, action))
  {
    var cfg, clock, epoch, actions :| a == Run(Fresh(cfg, clock, epoch), actions);
    assert (actions + [action])[..|actions|] == actions;
    assert Step(a, action) == Run(Fresh(cfg, clock, epoch), actions + [action]);
  }

  lemma OneMoreIsTaken(a: Account, n: nat, k: nat)
    requires Crowd(a, n, k) && k < n < UUID_SPACE
    ensures CreateStep(a, 2, CrowdEnv(k + 1)).0 == Insert(a, CrowdEnv(k + 1), Canon.CreateRequestHash(CrowdEnv(k + 1)))
  {
    hide Canon.CreateRequestHash, Insert;
  }

  lemma OneMoreIsTrashed(b: Account, id: Uuid)
    requires id in b.clips && id in b.clipIds && b.clips[id].version == 1 && b.clips[id].status == Active
    requires id !in b.receipts
    ensures var c := MutateStep(b, id, id, TrashOp, 1, false).0; c == Bump(b, id, Trash).(receipts := c.receipts)
    ensures MutateStep(b, id, id, TrashOp, 1, false).0.receipts.Keys == b.receipts.Keys + {id}
  {
    hide Canon.OperationRequestHash;
  }

  lemma OneMoreInCrowd(a: Account, n: nat, k: nat)
    requires Crowd(a, n, k) && k < n < UUID_SPACE
    ensures Crowd(MutateStep(CreateStep(a, 2, CrowdEnv(k + 1)).0, k + 1, k + 1, TrashOp, 1, false).0, n, k + 1)
  {
    hide CreateStep, MutateStep, Canon.CreateRequestHash;
    OneMoreIsTaken(a, n, k);
    OneMoreIsTrashed(CreateStep(a, 2, CrowdEnv(k + 1)).0, k + 1);
  }

  lemma EmptyCrowd(n: nat) returns (a: Account)
    ensures Reachable(a) && Crowd(a, n, 0)
  {
    hide Reachable;
    var empty := Fresh(Config(n, 17 * n), 0, 0);
    assert Reachable(empty) by { FreshIsReachable(Config(n, 17 * n), 0, 0); }
    var b := Step(empty, InitVault(Vault(1, 1)));
    ReachableNext(empty, InitVault(Vault(1, 1)));
    ReachableNext(b, EnrolDevice(2));
    a := Step(b, EnrolDevice(2));
  }

  lemma FreshIsReachable(cfg: Config, clock: Time, epoch: Uuid)
    ensures Reachable(Fresh(cfg, clock, epoch))
  {
    assert Run(Fresh(cfg, clock, epoch), []) == Fresh(cfg, clock, epoch);
  }

  lemma {:induction false} CrowdGathers(n: nat, k: nat) returns (a: Account)
    requires k <= n < UUID_SPACE
    ensures Reachable(a) && Crowd(a, n, k)
  {
    hide Reachable, Crowd, CreateStep, MutateStep;
    if k == 0 {
      a := EmptyCrowd(n);
    } else {
      var before := CrowdGathers(n, k - 1);
      OneMoreInCrowd(before, n, k - 1);
      ReachableNext(before, Create(2, CrowdEnv(k)));
      var b := Step(before, Create(2, CrowdEnv(k)));
      ReachableNext(b, Mutate(k, k, TrashOp, 1, false));
      a := Step(b, Mutate(k, k, TrashOp, 1, false));
    }
  }

  lemma {:induction false} CountUpTo(k: nat, s: set<Uuid>)
    requires forall id :: id in s <==> 1 <= id <= k
    requires k < UUID_SPACE
    ensures |s| == k
  {
    if k > 0 {
      CountUpTo(k - 1, s - {k});
    } else {
      assert s == {};
    }
  }

  /** A hundred and one clips that expire together: the job ends with one of them left. */
  lemma OneIsLeft()
    ensures exists a :: Reachable(a) && |Expired(a)| == 101 && |Expired(PurgeBatch(a))| == 1
  {
    var crowd := CrowdGathers(101, 101);
    ReachableNext(crowd, Tick(TRASH_PERIOD));
    var a := Step(crowd, Tick(TRASH_PERIOD));
    CountUpTo(101, Expired(a));
    ReachableIsOk(a);
    InvHasRows(a);
    BatchLeavesRest(a);
  }
}
