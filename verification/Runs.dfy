/** Arbitrary runs of one account's transactions, and what no run can undo. */
module Runs {
  import opened Domain
  import opened Accounts
  import opened Invariant
  import opened Canon
  import opened Expiry
  import opened Evolution

  /** One committed transaction, or the passing of time. */
  datatype Action =
    | Tick(elapsed: nat)
    | Create(device: Uuid, env: Envelope)
    | Mutate(id: Uuid, op: Uuid, kind: MutationKind, expected: int, skewed: bool)
    | PurgeExpired
    | RetainEvents(days: int)
    | CleanupReceipts
    | CleanupSnapshots
    | StartSnapshot(device: Uuid, token: nat)
    | RotateEpoch(epoch: Uuid)
    | DropSnapshots
    | EnrolDevice(device: Uuid)
    | RevokeDevice(device: Uuid)
    | InitVault(vault: Vault)

  function CreateStep(a: Account, device: Uuid, env: Envelope): (Account, Result<CreateResult>) {
    CreateClip(a, device, env, CreateRequestHash(env))
  }

  function MutateStep(a: Account, id: Uuid, op: Uuid, kind: MutationKind, expected: int, skewed: bool)
    : (Account, Result<Receipt>)
  {
    MutateClip(a, id, op, kind, expected, OperationRequestHash(kind, id, expected), skewed)
  }

  function Revoke(a: Account, device: Uuid): Account {
    if device in a.devices && a.devices[device].None? then a.(devices := a.devices[device := Some(a.clock)]) else a
  }

  ghost function Step(a: Account, action: Action): Account {
    match action
    case Tick(elapsed) => a.(clock := a.clock + elapsed)
    case Create(device, env) => CreateStep(a, device, env).0
    case Mutate(id, op, kind, expected, skewed) => MutateStep(a, id, op, kind, expected, skewed).0
    case PurgeExpired => PurgeBatch(a)
    case RetainEvents(days) => Retain(a, days)
    case CleanupReceipts => CleanReceipts(a)
    case CleanupSnapshots => CleanSnapshots(a)
    case StartSnapshot(device, token) => BeginSnapshot(a, device, token).0
    case RotateEpoch(epoch) => a.(epoch := epoch)
    case DropSnapshots => a.(snapshots := map[])
    case EnrolDevice(device) => if device in a.devices then a else a.(devices := a.devices[device := None])
    case RevokeDevice(device) => Revoke(a, device)
    case InitVault(vault) => if a.vault.Some? then a else a.(vault := Some(vault))
  }

  ghost function Run(a: Account, actions: seq<Action>): Account {
    if |actions| == 0 then a else Step(Run(a, actions[..|actions| - 1]), actions[|actions| - 1])
  }

  // ----- every step keeps the invariant and moves forward -----

  ghost predicate Follows(a: Account, b: Account) {
    Inv(b) && Evolves(a, b)
  }

  lemma FollowsTransitively(a: Account, b: Account, c: Account)
    requires Inv(a) && Follows(a, b) && Follows(b, c)
    ensures Follows(a, c)
  {
    EvolvesTransitively(a, b, c);
  }

  lemma FollowsItself(a: Account)
    requires Inv(a)
    ensures Follows(a, a)
  {
    QuietStepEvolves(a, a);
  }

  predicate SameTables(a: Account, b: Account) {
    && a.cfg == b.cfg && a.clips == b.clips && a.clipIds == b.clipIds
    && a.log == b.log && a.events == b.events && a.nextSeq == b.nextSeq && a.minAvailableSeq == b.minAvailableSeq
    && a.itemCount == b.itemCount && a.ciphertextBytes == b.ciphertextBytes
  }

  /** A transaction that touches neither rows nor log. */
  lemma QuietFollows(a: Account, b: Account)
    requires Inv(a) && SameTables(a, b)
    requires a.clock <= b.clock && SessionsEvolve(a, b) && SnapshotsOk(b)
    ensures Follows(a, b)
  {
    assert Inv(b) by { SameRowsStayOk(a, b); }
    QuietStepEvolves(a, b);
  }

  lemma CreateFollows(a: Account, device: Uuid, env: Envelope)
    requires Inv(a)
    ensures Follows(a, CreateStep(a, device, env).0)
  {
    var b := CreateStep(a, device, env).0;
    if b == a {
      FollowsItself(a);
    } else {
      InsertKeepsInv(a, env, CreateRequestHash(env));
      InsertEvolves(a, env, CreateRequestHash(env));
    }
  }

  lemma ApplyFollows(a: Account, id: Uuid, kind: MutationKind, expected: int, skewed: bool)
    requires Inv(a)
    ensures Follows(a, ApplyMutation(a, id, kind, expected, skewed).0)
    ensures ApplyMutation(a, id, kind, expected, skewed).1.Err? ==> ApplyMutation(a, id, kind, expected, skewed).0 == a
  {
    var b := ApplyMutation(a, id, kind, expected, skewed).0;
    if ApplyMutation(a, id, kind, expected, skewed).1.Err? {
      FollowsItself(a);
    } else {
      match kind
      case TrashOp => BumpKeepsInv(a, id, Trash); BumpEvolves(a, id, Trash);
      case RestoreOp => BumpKeepsInv(a, id, Active); BumpEvolves(a, id, Active);
      case PurgeOp => PurgeKeepsInv(a, id); PurgeEvolves(a, id);
    }
  }

  lemma ReceiptFollows(a: Account, op: Uuid, stored: StoredReceipt)
    requires Inv(a)
    ensures Follows(a, a.(receipts := a.receipts[op := stored]))
  {
    QuietFollows(a, a.(receipts := a.receipts[op := stored]));
  }

  /** A mutation either changes nothing or applies once and leaves a receipt. */
  lemma MutateShape(a: Account, id: Uuid, op: Uuid, kind: MutationKind, expected: int, hash: Digest, skewed: bool)
    ensures var (b, r) := ApplyMutation(a, id, kind, expected, skewed);
      var c := MutateClip(a, id, op, kind, expected, hash, skewed).0;
      c == a || (r.Ok? && op !in a.receipts
        && c == b.(receipts := b.receipts[op := StoredReceipt(hash, r.value, a.clock + RECEIPT_PERIOD)]))
  {
  }

  lemma MutateFollows(a: Account, id: Uuid, op: Uuid, kind: MutationKind, expected: int, skewed: bool)
    requires Inv(a)
    ensures Follows(a, MutateStep(a, id, op, kind, expected, skewed).0)
  {
    var hash := OperationRequestHash(kind, id, expected);
    MutateShape(a, id, op, kind, expected, hash, skewed);
    if MutateClip(a, id, op, kind, expected, hash, skewed).0 == a {
      FollowsItself(a);
    } else {
      AppliedWithReceiptFollows(a, id, op, kind, expected, hash, skewed);
    }
  }

  lemma AppliedWithReceiptFollows(a: Account, id: Uuid, op: Uuid, kind: MutationKind, expected: int, hash: Digest,
      skewed: bool)
    requires Inv(a) && ApplyMutation(a, id, kind, expected, skewed).1.Ok?
    ensures var (b, r) := ApplyMutation(a, id, kind, expected, skewed);
      Follows(a, b.(receipts := b.receipts[op := StoredReceipt(hash, r.value, a.clock + RECEIPT_PERIOD)]))
  {
    ApplyFollows(a, id, kind, expected, skewed);
    var (b, r) := ApplyMutation(a, id, kind, expected, skewed);
    var stored := StoredReceipt(hash, r.value, a.clock + RECEIPT_PERIOD);
    ReceiptFollows(b, op, stored);
    FollowsTransitively(a, b, b.(receipts := b.receipts[op := stored]));
  }

  lemma PurgeOneFollows(a: Account, id: Uuid)
    requires Inv(a)
    ensures Follows(a, PurgeIfExpired(a, id))
  {
    if PurgeIfExpired(a, id) == a {
      FollowsItself(a);
    } else {
      PurgeKeepsInv(a, id);
      PurgeEvolves(a, id);
    }
  }

  lemma {:induction false} PurgeAllFollows(a: Account, ids: seq<Uuid>)
    requires Inv(a)
    ensures Follows(a, PurgeAll(a, ids))
  {
    if |ids| == 0 {
      FollowsItself(a);
    } else {
      var b := PurgeAll(a, ids[..|ids| - 1]);
      PurgeAllFollows(a, ids[..|ids| - 1]);
      PurgeOneFollows(b, ids[|ids| - 1]);
      FollowsTransitively(a, b, PurgeAll(a, ids));
    }
  }

  /** Times rise with numbers, so what retention deletes is a prefix and what stays is contiguous. */
  lemma RetainKeepsSuffix(a: Account, days: int)
    requires LogOk(a) && RetentionOk(a)
    ensures LogOk(Retain(a, days)) && RetentionOk(Retain(a, days))
    ensures a.minAvailableSeq <= Retain(a, days).minAvailableSeq
  {
    var b := Retain(a, days);
    if b.events != map[] {
      var m := b.minAvailableSeq;
      assert m in b.events && m in a.events;
      forall s | m <= s <= a.nextSeq ensures s in b.events {
        assert s in a.events && a.events[s] == a.log[s - 1] && a.events[m] == a.log[m - 1];
      }
    }
  }

  lemma RetainFollows(a: Account, days: int)
    requires Inv(a)
    ensures Follows(a, Retain(a, days))
  {
    var b := Retain(a, days);
    RetainKeepsSuffix(a, days);
    assert Inv(b) by { SameRowsStayOk(a, b); }
    QuietStepEvolves(a, b);
  }

  lemma StepFollows(a: Account, action: Action)
    requires Inv(a)
    ensures Follows(a, Step(a, action))
  {
    match action
    case Create(device, env) => CreateFollows(a, device, env);
    case Mutate(id, op, kind, expected, skewed) => MutateFollows(a, id, op, kind, expected, skewed);
    case PurgeExpired => PurgeAllFollows(a, BatchIds(a));
    case RetainEvents(days) => RetainFollows(a, days);
    case _ => QuietStepFollows(a, action);
  }

  predicate IsQuiet(action: Action) {
    !action.Create? && !action.Mutate? && !action.PurgeExpired? && !action.RetainEvents?
  }

  lemma QuietStepTouchesNoRow(a: Account, action: Action)
    requires IsQuiet(action)
    ensures SameTables(a, Step(a, action)) && a.clock <= Step(a, action).clock
  {
    hide CreateStep, MutateStep, PurgeBatch, Retain;
  }

  lemma QuietStepKeepsSessions(a: Account, action: Action)
    requires IsQuiet(action) && SnapshotsOk(a)
    ensures SessionsEvolve(a, Step(a, action)) && SnapshotsOk(Step(a, action))
  {
    hide CreateStep, MutateStep, PurgeBatch, Retain, BeginSnapshot, Revoke;
    match action
    case StartSnapshot(device, token) => StartKeepsSessions(a, device, token);
    case RevokeDevice(device) => RevokeKeepsSessions(a, device);
    case _ =>
  }

  lemma RevokeKeepsSessions(a: Account, device: Uuid)
    requires SnapshotsOk(a)
    ensures SessionsEvolve(a, Revoke(a, device)) && SnapshotsOk(Revoke(a, device))
  {
  }

  lemma StartKeepsSessions(a: Account, device: Uuid, token: nat)
    requires SnapshotsOk(a)
    ensures SessionsEvolve(a, BeginSnapshot(a, device, token).0) && SnapshotsOk(BeginSnapshot(a, device, token).0)
  {
  }

  lemma QuietStepFollows(a: Account, action: Action)
    requires Inv(a) && IsQuiet(action)
    ensures Follows(a, Step(a, action))
  {
    QuietStepTouchesNoRow(a, action);
    QuietStepKeepsSessions(a, action);
    QuietFollows(a, Step(a, action));
  }

  lemma {:induction false} RunFollows(a: Account, actions: seq<Action>)
    requires Inv(a)
    ensures Follows(a, Run(a, actions))
  {
    if |actions| == 0 {
      FollowsItself(a);
    } else {
      var b := Run(a, actions[..|actions| - 1]);
      RunFollows(a, actions[..|actions| - 1]);
      StepFollows(b, actions[|actions| - 1]);
      FollowsTransitively(a, b, Run(a, actions));
    }
  }

  // ----- what only retention, a new epoch and a tick change -----

  predicate SameEra(a: Account, b: Account) {
    a.epoch == b.epoch && a.minAvailableSeq == b.minAvailableSeq && a.clock == b.clock
  }

  predicate KeepsEpoch(actions: seq<Action>) {
    forall i :: 0 <= i < |actions| ==> !actions[i].RotateEpoch?
  }

  predicate KeepsEvents(actions: seq<Action>) {
    forall i :: 0 <= i < |actions| ==> !actions[i].RetainEvents?
  }

  function Duration(action: Action): nat {
    if action.Tick? then action.elapsed else 0
  }

  function Elapsed(actions: seq<Action>): nat {
    if |actions| == 0 then 0 else Elapsed(actions[..|actions| - 1]) + Duration(actions[|actions| - 1])
  }

  lemma {:induction false} PurgingKeepsEra(a: Account, ids: seq<Uuid>)
    ensures SameEra(a, PurgeAll(a, ids))
  {
    if |ids| > 0 {
      PurgingKeepsEra(a, ids[..|ids| - 1]);
    }
  }

  lemma StepKeepsEra(a: Account, action: Action)
    ensures !action.RetainEvents? ==> Step(a, action).minAvailableSeq == a.minAvailableSeq
    ensures !action.RotateEpoch? ==> Step(a, action).epoch == a.epoch
    ensures Step(a, action).clock == a.clock + Duration(action)
  {
    match action
    case PurgeExpired => PurgingKeepsEra(a, BatchIds(a));
    case Mutate(id, op, kind, expected, skewed) => MutateKeepsEra(a, id, op, kind, expected, skewed);
    case _ =>
  }

  lemma MutateKeepsEra(a: Account, id: Uuid, op: Uuid, kind: MutationKind, expected: int, skewed: bool)
    ensures SameEra(a, MutateStep(a, id, op, kind, expected, skewed).0)
  {
    hide ApplyMutation;
    ApplyKeepsEra(a, id, kind, expected, skewed);
  }

  lemma ApplyKeepsEra(a: Account, id: Uuid, kind: MutationKind, expected: int, skewed: bool)
    ensures SameEra(a, ApplyMutation(a, id, kind, expected, skewed).0)
  {
  }

  /** Only a new epoch, retention and ticks move the three things that decide on a cursor's fate. */
  lemma {:induction false} RunKeepsEra(a: Account, actions: seq<Action>)
    ensures KeepsEpoch(actions) ==> Run(a, actions).epoch == a.epoch
    ensures KeepsEvents(actions) ==> Run(a, actions).minAvailableSeq == a.minAvailableSeq
    ensures Run(a, actions).clock == a.clock + Elapsed(actions)
  {
    hide Step;
    if |actions| > 0 {
      RunKeepsEra(a, actions[..|actions| - 1]);
      StepKeepsEra(Run(a, actions[..|actions| - 1]), actions[|actions| - 1]);
    }
  }

  // ----- runs that leave hidden rows alone -----

  /** No time passes, nothing is purged, and the clip with the nil UUID is not mutated. */
  predicate IsCalm(action: Action) {
    match action
    case Tick(_) => false
    case PurgeExpired => false
    case Mutate(id, _, kind, _, _) => kind != PurgeOp && id != NIL_UUID
    case _ => true
  }

  predicate Calm(actions: seq<Action>) {
    forall i :: 0 <= i < |actions| ==> IsCalm(actions[i])
  }

  predicate Still(a: Account, b: Account) {
    && a.clock == b.clock && a.clips.Keys <= b.clips.Keys
    && (NIL_UUID in a.clips ==> NIL_UUID in b.clips && b.clips[NIL_UUID] == a.clips[NIL_UUID])
  }

  lemma StepIsStill(a: Account, action: Action)
    requires RowsOk(a) && IsCalm(action)
    ensures Still(a, Step(a, action))
  {
    hide CreateStep, MutateStep, PurgeBatch, BeginSnapshot, Revoke;
    StepKeepsEra(a, action);
    match action
    case Create(device, env) => CreateIsStill(a, device, env);
    case Mutate(id, op, kind, expected, skewed) => MutateIsStill(a, id, op, kind, expected, skewed);
    case RetainEvents(days) =>
    case _ => QuietStepTouchesNoRow(a, action);
  }

  lemma CreateIsStill(a: Account, device: Uuid, env: Envelope)
    requires RowsOk(a)
    ensures Still(a, CreateStep(a, device, env).0)
  {
    ClipsAreRegistered(a);
  }

  lemma MutateIsStill(a: Account, id: Uuid, op: Uuid, kind: MutationKind, expected: int, skewed: bool)
    requires kind != PurgeOp && id != NIL_UUID
    ensures var b := MutateStep(a, id, op, kind, expected, skewed).0;
      a.clips.Keys <= b.clips.Keys && forall x :: x in a.clips && x != id ==> b.clips[x] == a.clips[x]
  {
    var hash := OperationRequestHash(kind, id, expected);
    MutateShape(a, id, op, kind, expected, hash, skewed);
  }

  lemma {:induction false} RunIsStill(a: Account, actions: seq<Action>)
    requires Inv(a) && Calm(actions)
    ensures Still(a, Run(a, actions))
  {
    hide Inv, Evolves, Step;
    if |actions| > 0 {
      var front := actions[..|actions| - 1];
      RunIsStill(a, front);
      RunFollows(a, front);
      InvHasRows(Run(a, front));
      StepIsStill(Run(a, front), actions[|actions| - 1]);
    }
  }

  lemma FreshIsOk(cfg: Config, clock: Time, epoch: Uuid)
    ensures Inv(Fresh(cfg, clock, epoch))
  {
    assert View(Fresh(cfg, clock, epoch)) == map[];
  }

  ghost predicate Reachable(a: Account) {
    exists cfg, clock, epoch, actions :: a == Run(Fresh(cfg, clock, epoch), actions)
  }

  lemma ReachableIsOk(a: Account)
    requires Reachable(a)
    ensures Inv(a)
  {
    var cfg, clock, epoch, actions :| a == Run(Fresh(cfg, clock, epoch), actions);
    FreshIsOk(cfg, clock, epoch);
    RunFollows(Fresh(cfg, clock, epoch), actions);
  }
}
