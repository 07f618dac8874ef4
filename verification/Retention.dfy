/** How long a device may stay away: within the retention period its cursor is never refused. */
module Retention {
  import opened Domain
  import opened Ordered
  import opened Accounts
  import opened Invariant
  import opened Evolution
  import opened Expiry
  import opened Runs
  import opened History
  import Canon

  function EffectiveDays(days: int): nat {
    if days < 1 then 30 else days
  }

  /** Every retention of the run keeps at least `days` days of events. */
  predicate KeepsDays(actions: seq<Action>, days: nat) {
    forall i :: 0 <= i < |actions| && actions[i].RetainEvents? ==> days <= EffectiveDays(actions[i].days)
  }

  predicate AppendsLater(a: Account, b: Account) {
    |a.log| <= |b.log| && forall i :: |a.log| <= i < |b.log| ==> a.clock <= b.log[i].occurredAt
  }

  lemma BatchAppendsNow(a: Account)
    requires RowsOk(a)
    ensures AppendsLater(a, PurgeBatch(a))
  {
    hide RowsOk, Expired, BatchIds;
    BatchIsExact(a);
    var b, events := PurgeBatch(a), PurgeEvents(a, BatchIds(a));
    forall i | |a.log| <= i < |b.log| ensures a.clock <= b.log[i].occurredAt {
      assert b.log[i] == events[i - |a.log|];
    }
  }

  /** Whatever a transaction appends carries the time of that transaction. */
  lemma StepAppendsNow(a: Account, action: Action)
    requires RowsOk(a)
    ensures AppendsLater(a, Step(a, action))
  {
    if action.PurgeExpired? {
      BatchAppendsNow(a);
    } else if action.Mutate? {
      MutateAppendsNow(a, action);
    }
  }

  lemma MutateAppendsNow(a: Account, action: Action)
    requires action.Mutate?
    ensures AppendsLater(a, Step(a, action))
  {
    hide ApplyMutation, MutateClip, Canon.OperationRequestHash;
    var hash := Canon.OperationRequestHash(action.kind, action.id, action.expected);
    MutateShape(a, action.id, action.op, action.kind, action.expected, hash, action.skewed);
    ApplyAppendsNow(a, action.id, action.kind, action.expected, action.skewed);
  }

  lemma ApplyAppendsNow(a: Account, id: Uuid, kind: MutationKind, expected: int, skewed: bool)
    ensures AppendsLater(a, ApplyMutation(a, id, kind, expected, skewed).0)
  {
    hide AppendsLater;
    AppendsNothing(a);
    if id in a.clips && id in a.clipIds {
      match kind
      case TrashOp => BumpAppendsNow(a, id, Trash);
      case RestoreOp => BumpAppendsNow(a, id, Active);
      case PurgeOp => PurgeAppendsNow(a, id);
    }
  }

  lemma BumpAppendsNow(a: Account, id: Uuid, status: Status)
    requires id in a.clips
    ensures AppendsLater(a, Bump(a, id, status))
  {
  }

  lemma PurgeAppendsNow(a: Account, id: Uuid)
    requires id in a.clips && id in a.clipIds
    ensures AppendsLater(a, Purge(a, id))
  {
  }

  lemma AppendsNothing(a: Account)
    ensures AppendsLater(a, a)
  {
  }

  // ----- which cursors retention spares -----

  /**
   * For `slack` more time no retention that keeps `period` days reaches an event after number k: they are all
   * there, and none will be old enough.
   */
  predicate Secure(a: Account, k: nat, period: nat, slack: nat) {
    && k <= a.nextSeq && a.minAvailableSeq <= k + 1 && slack <= period * DAY
    && forall i :: k <= i < |a.log| ==> a.clock + slack <= a.log[i].occurredAt + period * DAY
  }

  lemma HeadIsSecure(a: Account, period: nat, slack: nat)
    requires Inv(a) && slack <= period * DAY
    ensures Secure(a, a.nextSeq, period, slack)
  {
  }

  lemma RetainKeepsSecure(a: Account, days: int, k: nat, period: nat, slack: nat)
    requires LogOk(a) && RetentionOk(a) && Secure(a, k, period, slack) && period <= EffectiveDays(days)
    ensures Secure(Retain(a, days), k, period, slack)
  {
    var kept := Kept(a, days);
    CutoffIsBefore(a, days, period);
    if k < a.nextSeq {
      assert k + 1 in a.events && a.events[k + 1] == a.log[k];
      assert k + 1 in kept;
      assert IsLeast(kept.Keys, Least(kept.Keys));
    } else if kept.Keys != {} {
      assert Least(kept.Keys) in a.events;
    }
  }

  /**
   * Retention deletes exactly the events older than the configured days, thirty where none or nonsense is
   * configured, and the minimum becomes the earliest number left, or one past the newest if none is.
   */
  lemma RetainIsExact(a: Account, days: int, s: nat)
    ensures var b := Retain(a, days);
      && b == a.(events := b.events, minAvailableSeq := b.minAvailableSeq)
      && (s in b.events <==>
            s in a.events && a.clock <= a.events[s].occurredAt + (if days < 1 then 30 else days) * 86_400_000_000)
      && (s in b.events ==> b.events[s] == a.events[s] && b.minAvailableSeq <= s && b.minAvailableSeq in b.events)
      && (b.events == map[] ==> b.minAvailableSeq == a.nextSeq + 1)
  {
    var b := Retain(a, days);
    assert s in b.events ==> s in b.events.Keys;
  }

  lemma CutoffIsBefore(a: Account, days: int, period: nat)
    requires period <= EffectiveDays(days)
    ensures Cutoff(a, days) <= a.clock - period * DAY
  {
    assert period * DAY <= EffectiveDays(days) * DAY;
  }

  lemma StepKeepsSecure(a: Account, action: Action, k: nat, period: nat, slack: nat)
    requires Inv(a) && Secure(a, k, period, slack) && Duration(action) <= slack
    requires action.RetainEvents? ==> period <= EffectiveDays(action.days)
    ensures Secure(Step(a, action), k, period, slack - Duration(action))
  {
    hide Inv, Evolves, Step, Retain;
    InvIsSound(a);
    if action.RetainEvents? {
      RetainKeepsSecure(a, action.days, k, period, slack);
      StepIsRetain(a, action.days);
    } else {
      StepKeepsEra(a, action);
      StepAppendsNow(a, action);
      StepFollows(a, action);
      LaterLog(a, Step(a, action));
    }
  }

  lemma {:induction false} RunKeepsSecure(a: Account, actions: seq<Action>, k: nat, period: nat, slack: nat)
    requires Inv(a) && Secure(a, k, period, slack) && KeepsDays(actions, period) && Elapsed(actions) <= slack
    ensures Secure(Run(a, actions), k, period, slack - Elapsed(actions))
  {
    hide Inv, Evolves, Step, Secure;
    if |actions| > 0 {
      var front, last := actions[..|actions| - 1], actions[|actions| - 1];
      RunFollows(a, front);
      RunKeepsSecure(a, front, k, period, slack);
      StepKeepsSecure(Run(a, front), last, k, period, slack - Elapsed(front));
    }
  }

  lemma LaterLog(a: Account, b: Account)
    requires Follows(a, b)
    ensures a.nextSeq <= b.nextSeq && a.log <= b.log
  {
  }

  lemma InvIsSound(a: Account)
    requires Inv(a)
    ensures LogOk(a) && RetentionOk(a) && RowsOk(a) && a.nextSeq == |a.log| && a.minAvailableSeq <= a.nextSeq + 1
  {
  }

  lemma StepIsRetain(a: Account, days: int)
    ensures Step(a, RetainEvents(days)) == Retain(a, days)
  {
  }

  /**
   * A device that was up to date and comes back within the retention period, in the same epoch, is given
   * every event it missed instead of being sent into a full rebuild.
   */
  lemma AbsenceWithinRetention(a: Account, actions: seq<Action>, period: nat, limit: nat)
    requires Reachable(a) && KeepsDays(actions, period) && limit > 0
    requires Run(a, actions).clock <= a.clock + period * DAY && Run(a, actions).epoch == a.epoch
    ensures var b := Run(a, actions);
      var r := Changes(b, a.epoch, a.nextSeq, limit);
      && r.Ok? && a.nextSeq <= b.nextSeq == |b.log|
      && r.value.events == b.log[a.nextSeq..Min(a.nextSeq + limit, b.nextSeq)]
  {
    hide Inv, Evolves, Step, Changes;
    ReachableIsOk(a);
    RunFollows(a, actions);
    var b := Run(a, actions);
    RunKeepsEra(a, actions);
    HeadIsSecure(a, period, period * DAY);
    RunKeepsSecure(a, actions, a.nextSeq, period, period * DAY);
    LaterLog(a, b);
    InvIsSound(b);
    PageHasNoGap(b, a.epoch, a.nextSeq, limit);
  }

  // ----- what a month of absence can do -----

  lemma RunTwo(a: Account, x: Action, y: Action)
    ensures Run(a, [x, y]) == Step(Step(a, x), y)
  {
    assert [x, y][..1] == [x] && [x][..0] == [];
    assert Run(a, [x]) == Step(a, x);
  }

  lemma {:induction false} RunJoins(a: Account, xs: seq<Action>, ys: seq<Action>)
    ensures Run(a, xs + ys) == Run(Run(a, xs), ys)
  {
    if |ys| == 0 {
      assert xs + ys == xs;
    } else {
      assert (xs + ys)[..|xs + ys| - 1] == xs + ys[..|ys| - 1];
      RunJoins(a, xs, ys[..|ys| - 1]);
    }
  }

  const MONTH_LATER := [Tick(31 * DAY), RetainEvents(30)]

  /** After 31 days without a write, retention leaves no event. */
  lemma MonthLaterLogIsEmpty(a: Account)
    requires Inv(a)
    ensures var b := Run(a, MONTH_LATER);
      && b.minAvailableSeq == b.nextSeq + 1 && b.nextSeq == a.nextSeq && b.clips == a.clips && b.clipIds == a.clipIds
      && b.clock == a.clock + 31 * DAY
  {
    hide RowsOk, LogIsState, QuotaOk, SnapshotsOk;
    RunTwo(a, Tick(31 * DAY), RetainEvents(30));
    var late := Step(a, Tick(31 * DAY));
    assert Step(late, RetainEvents(30)) == Retain(late, 30);
    assert Kept(late, 30).Keys == {};
  }

  /**
   * The gap between the two reads of Changes is real: from any state with an event after the cursor, a month
   * of silence and one retention between them lose it.
   */
  lemma SplitReadCanGap(a: Account, after: nat, limit: nat)
    requires Reachable(a) && limit > 0 && a.minAvailableSeq <= after + 1 && after < a.nextSeq
    ensures Changes(a, a.epoch, after, limit).Ok?
    ensures SplitChanges(a, Run(a, MONTH_LATER), a.epoch, after, limit) != Changes(a, a.epoch, after, limit)
  {
    ReachableIsOk(a);
    MonthLaterLogIsEmpty(a);
    PageHasNoGap(a, a.epoch, after, limit);
    SplitReadIsExactIff(a, MONTH_LATER, a.epoch, after, limit);
  }

  function LongAbsence(id: Uuid, version: nat, trashOp: Uuid, purgeOp: Uuid): seq<Action> {
    [Mutate(id, trashOp, TrashOp, version, false), Mutate(id, purgeOp, PurgeOp, version + 1, false)] + MONTH_LATER
  }

  lemma TrashThenPurge(a: Account, id: Uuid, trashOp: Uuid, purgeOp: Uuid)
    requires RowsOk(a) && id in a.clips && a.clips[id].status == Active
    requires trashOp !in a.receipts && purgeOp !in a.receipts && trashOp != purgeOp
    ensures var v := a.clips[id].version;
      var b := MutateStep(MutateStep(a, id, trashOp, TrashOp, v, false).0, id, purgeOp, PurgeOp, v + 1, false).0;
      && b.nextSeq == a.nextSeq + 2 && id !in b.clips && id in b.clipIds
      && b.clipIds[id].tomb.Some? && b.clipIds[id].tomb.value.seqNo <= b.nextSeq
  {
    assert RowOk(a, id);
  }

  /** Another device trashes and purges the clip, and a month later the log is empty. */
  lemma AbsencePurges(a: Account, id: Uuid, trashOp: Uuid, purgeOp: Uuid)
    requires Inv(a) && id in a.clips && a.clips[id].status == Active
    requires trashOp !in a.receipts && purgeOp !in a.receipts && trashOp != purgeOp
    ensures var b := Run(a, LongAbsence(id, a.clips[id].version, trashOp, purgeOp));
      && Follows(a, b) && b.minAvailableSeq == b.nextSeq + 1 && a.nextSeq < b.nextSeq
      && id !in b.clips && id in b.clipIds && b.clipIds[id].tomb.Some? && b.clipIds[id].tomb.value.seqNo <= b.nextSeq
  {
    hide Inv, Evolves, MutateStep, Retain;
    var v := a.clips[id].version;
    var trash, purge := Mutate(id, trashOp, TrashOp, v, false), Mutate(id, purgeOp, PurgeOp, v + 1, false);
    RunFollows(a, LongAbsence(id, v, trashOp, purgeOp));
    RunJoins(a, [trash, purge], MONTH_LATER);
    RunTwo(a, trash, purge);
    RunFollows(a, [trash, purge]);
    MonthLaterLogIsEmpty(Run(a, [trash, purge]));
    InvHasRows(a);
    TrashThenPurge(a, id, trashOp, purgeOp);
  }

  function TrashedAway(id: Uuid, version: nat, trashOp: Uuid): seq<Action> {
    [Mutate(id, trashOp, TrashOp, version, false)] + MONTH_LATER
  }

  lemma TrashBumps(a: Account, id: Uuid, op: Uuid)
    requires RowsOk(a) && id in a.clips && a.clips[id].status == Active && op !in a.receipts
    ensures var b := MutateStep(a, id, op, TrashOp, a.clips[id].version, false).0;
      && b.nextSeq == a.nextSeq + 1 && b.clock == a.clock
      && id in b.clips && id in b.clipIds && b.clips[id] == BumpedClip(a, a.clips[id], Trash)
  {
    assert RowOk(a, id);
  }

  /** Another device only trashes the clip; a month later the log is empty and the clip is expired trash. */
  lemma AbsenceExpires(a: Account, id: Uuid, trashOp: Uuid)
    requires Inv(a) && id in a.clips && a.clips[id].status == Active && trashOp !in a.receipts
    ensures var b := Run(a, TrashedAway(id, a.clips[id].version, trashOp));
      && Follows(a, b) && b.minAvailableSeq == b.nextSeq + 1 && a.nextSeq < b.nextSeq
      && id in b.clips && id in b.clipIds && IsExpired(b.clips[id], b.clock) && b.clips[id].lastSeq == b.nextSeq
  {
    hide Inv, Evolves, MutateStep, Retain;
    var trash := Mutate(id, trashOp, TrashOp, a.clips[id].version, false);
    RunFollows(a, TrashedAway(id, a.clips[id].version, trashOp));
    RunJoins(a, [trash], MONTH_LATER);
    assert [trash][..0] == [];
    assert Run(a, [trash]) == Step(a, trash);
    RunFollows(a, [trash]);
    MonthLaterLogIsEmpty(Run(a, [trash]));
    InvHasRows(a);
    TrashBumps(a, id, trashOp);
  }
}
