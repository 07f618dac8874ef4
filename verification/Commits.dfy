/**
 * Overlapping transactions on one account, one statement at a time: taking the row lock, numbering,
 * writing, committing, and event retention, which deletes without that lock.
 */
module Commits {
  import opened Domain
  import opened Ordered

  /** A transaction that holds the row lock sees its own numbers and events; nobody else does. */
  datatype Txn = Waiting | Holding(next: nat, written: set<nat>) | Finished

  /**
   * Retention deletes in one statement and then recomputes the minimum in another. That second
   * statement reads the events as they were when it began; `seen` is next_seq at that moment.
   */
  datatype Retention = Idle | Deleted(gone: set<nat>) | Scanned(gone: set<nat>, least: Option<nat>, seen: nat)

  /** next_seq, min_available_seq and the events as committed, which is what every reader sees. */
  datatype State = State(
    nextSeq: nat, minAvailableSeq: nat, events: set<nat>,
    lock: Option<nat>, txns: map<nat, Txn>, retention: Retention)

  datatype Action =
    | Begin(t: nat)
    | Lock(t: nat)
    | Number(t: nat)
    | Write(t: nat)
    | Commit(t: nat)
    | Abort(t: nat)
    | DeleteOld(cut: nat)
    | ScanLeast
    | UpdateLeast
    | AbortRetention

  const START := State(0, 1, {}, None, map[], Idle)

  ghost function LeastOf(s: set<nat>): Option<nat> {
    if s == {} then None else Some(Least(s))
  }

  /** A number is written before the next is taken, and before the commit. */
  predicate LastIsWritten(s: State, t: Txn)
    requires t.Holding?
  {
    t.next == s.nextSeq || t.next in t.written
  }

  /** Whether the action can happen now: an UPDATE of the account row waits for the lock like a writer does. */
  predicate Enabled(s: State, action: Action) {
    match action
    case Begin(t) => t !in s.txns
    case Lock(t) => t in s.txns && s.txns[t] == Waiting && s.lock == None
    case Number(t) => t in s.txns && s.txns[t].Holding? && LastIsWritten(s, s.txns[t])
    case Write(t) => t in s.txns && s.txns[t].Holding? && s.txns[t].next > s.nextSeq
    case Commit(t) => t in s.txns && s.txns[t].Holding? && LastIsWritten(s, s.txns[t])
    case Abort(t) => t in s.txns && s.txns[t] != Finished
    case DeleteOld(_) => s.retention == Idle
    case ScanLeast => s.retention.Deleted?
    case UpdateLeast => s.retention.Scanned? && s.lock == None
    case AbortRetention => s.retention != Idle
  }

  /** Times rise with numbers, so what is older than the period is what lies below some number. */
  function Old(s: State, cut: nat): set<nat> {
    set x | x in s.events && x <= cut
  }

  ghost function Step(s: State, action: Action): State {
    if !Enabled(s, action) then s
    else match action
      case Begin(t) => s.(txns := s.txns[t := Waiting])
      case Lock(t) => s.(lock := Some(t), txns := s.txns[t := Holding(s.nextSeq, {})])
      case Number(t) => s.(txns := s.txns[t := s.txns[t].(next := s.txns[t].next + 1)])
      case Write(t) => s.(txns := s.txns[t := s.txns[t].(written := s.txns[t].written + {s.txns[t].next})])
      case Commit(t) =>
        s.(nextSeq := s.txns[t].next, events := s.events + s.txns[t].written,
           lock := None, txns := s.txns[t := Finished])
      case Abort(t) => s.(lock := if s.lock == Some(t) then None else s.lock, txns := s.txns[t := Finished])
      case DeleteOld(cut) => s.(retention := Deleted(Old(s, cut)))
      case ScanLeast => s.(retention := Scanned(s.retention.gone, LeastOf(s.events - s.retention.gone), s.nextSeq))
      case UpdateLeast =>
        s.(events := s.events - s.retention.gone, retention := Idle,
           minAvailableSeq := if s.retention.least.Some? then s.retention.least.value else s.nextSeq + 1)
      case AbortRetention => s.(retention := Idle)
  }

  ghost function Run(s: State, actions: seq<Action>): State {
    if |actions| == 0 then s else Step(Run(s, actions[..|actions| - 1]), actions[|actions| - 1])
  }

  // ----- what every statement keeps -----

  /** The numbers a transaction may have written: all it has taken, save perhaps the last. */
  predicate WrittenInOrder(s: State, t: Txn)
    requires t.Holding?
  {
    && s.nextSeq <= t.next
    && (forall x :: x in t.written ==> s.nextSeq < x <= t.next)
    && (forall x :: s.nextSeq < x < t.next ==> x in t.written)
  }

  predicate LockOk(s: State) {
    && (forall t :: t in s.txns && s.txns[t].Holding? ==> s.lock == Some(t) && WrittenInOrder(s, s.txns[t]))
    && (s.lock.Some? ==> s.lock.value in s.txns && s.txns[s.lock.value].Holding?)
  }

  /** What retention is about to delete is a prefix of what there is. */
  predicate IsPrefix(gone: set<nat>, events: set<nat>) {
    && gone <= events
    && forall x, y :: x in events && y in gone && x <= y ==> x in gone
  }

  ghost predicate RetentionOk(s: State) {
    match s.retention
    case Idle => true
    case Deleted(gone) => IsPrefix(gone, s.events)
    case Scanned(gone, least, seen) =>
      && IsPrefix(gone, s.events) && seen <= s.nextSeq
      && (least.Some? ==> IsLeast(s.events - gone, least.value))
      && (least.None? ==> forall x :: x in s.events - gone <==> seen < x <= s.nextSeq)
  }

  /** The retained events run without a gap up to next_seq, and min_available_seq promises no more than that. */
  predicate EventsOk(s: State) {
    && (forall x :: x in s.events ==> 1 <= x <= s.nextSeq)
    && (forall x, y :: x in s.events && x <= y <= s.nextSeq ==> y in s.events)
    && 1 <= s.minAvailableSeq <= s.nextSeq + 1
    && (s.minAvailableSeq <= s.nextSeq ==> s.minAvailableSeq in s.events)
  }

  ghost predicate Ok(s: State) {
    LockOk(s) && RetentionOk(s) && EventsOk(s)
  }

  lemma CommitKeepsOk(s: State, t: nat)
    requires Ok(s) && Enabled(s, Commit(t))
    ensures Ok(Step(s, Commit(t)))
  {
    var b, txn := Step(s, Commit(t)), s.txns[t];
    forall x, y | x in b.events && x <= y <= b.nextSeq ensures y in b.events {
      assert y <= s.nextSeq || y in txn.written;
    }
    assert forall x :: s.nextSeq < x <= b.nextSeq ==> x in txn.written;
    assert RetentionOk(b) by {
      if s.retention.Scanned? {
        var gone := s.retention.gone;
        assert b.events - gone == (s.events - gone) + txn.written;
      }
    }
  }

  lemma UpdateKeepsOk(s: State)
    requires Ok(s) && Enabled(s, UpdateLeast)
    ensures Ok(Step(s, UpdateLeast))
  {
  }

  lemma StepKeepsOk(s: State, action: Action)
    requires Ok(s)
    ensures Ok(Step(s, action))
  {
    match action
    case Commit(t) => if Enabled(s, action) { CommitKeepsOk(s, t); }
    case UpdateLeast => if Enabled(s, action) { UpdateKeepsOk(s); }
    case _ =>
  }

  lemma {:induction false} RunKeepsOk(s: State, actions: seq<Action>)
    requires Ok(s)
    ensures Ok(Run(s, actions))
  {
    if |actions| > 0 {
      RunKeepsOk(s, actions[..|actions| - 1]);
      StepKeepsOk(Run(s, actions[..|actions| - 1]), actions[|actions| - 1]);
    }
  }

  // ----- what a reader may rely on -----

  /**
   * Whatever overlaps, and however much happens between a reader's two statements: if the first shows
   * next_seq = H and retention has not passed the cursor by the second, the events it then finds up to H are
   * exactly those of every number after the cursor. Retention aside, they are events it could see before.
   */
  lemma ReaderSeesEveryNumber(xs: seq<Action>, ys: seq<Action>, after: nat, x: nat)
    ensures var s := Run(START, xs);
      var t := Run(s, ys);
      && (t.minAvailableSeq <= after + 1 ==>
            (x in t.events && after < x <= s.nextSeq <==> after < x <= s.nextSeq))
      && (x in t.events && x <= s.nextSeq ==> x in s.events)
  {
    RunKeepsOk(START, xs);
    var s := Run(START, xs);
    RunKeepsOk(s, ys);
    RunGrows(s, ys);
    if x in Run(s, ys).events && x !in s.events {
      NothingAppearsBehind(s, ys, x);
    }
  }

  /**
   * A number that becomes visible later is higher than any next_seq read before: no cursor passes an
   * uncommitted one.
   */
  lemma {:induction false} NothingAppearsBehind(s: State, actions: seq<Action>, x: nat)
    requires Ok(s) && x in Run(s, actions).events && x !in s.events
    ensures x > s.nextSeq
  {
    var before := Run(s, actions[..|actions| - 1]);
    var last := actions[|actions| - 1];
    RunKeepsOk(s, actions[..|actions| - 1]);
    RunGrows(s, actions[..|actions| - 1]);
    if x in before.events {
      NothingAppearsBehind(s, actions[..|actions| - 1], x);
    } else {
      AppearsOnCommit(before, last, x);
    }
  }

  lemma AppearsOnCommit(s: State, action: Action, x: nat)
    requires Ok(s) && x in Step(s, action).events && x !in s.events
    ensures x > s.nextSeq
  {
    match action
    case Commit(t) => assert WrittenInOrder(s, s.txns[t]);
    case _ =>
  }

  lemma {:induction false} RunGrows(s: State, actions: seq<Action>)
    requires Ok(s)
    ensures s.nextSeq <= Run(s, actions).nextSeq
  {
    if |actions| > 0 {
      RunKeepsOk(s, actions[..|actions| - 1]);
      RunGrows(s, actions[..|actions| - 1]);
    }
  }

  // ----- the minimum under overlap -----

  /** min_available_seq is the earliest event that can still be pulled. */
  ghost predicate Exact(s: State) {
    s.minAvailableSeq == if s.events == {} then s.nextSeq + 1 else Least(s.events)
  }

  /** The scan found an event, or nobody has committed since. */
  predicate InTime(s: State)
    requires s.retention.Scanned?
  {
    s.retention.least.Some? || s.retention.seen == s.nextSeq
  }

  /**
   * The update makes the minimum exact unless the scan found nothing and a writer committed while the
   * update waited for the row: then next_seq + 1 is taken from the new row and skips its events.
   */
  lemma UpdateIsExactIff(s: State)
    requires Ok(s) && Enabled(s, UpdateLeast)
    ensures Exact(Step(s, UpdateLeast)) <==> InTime(s)
  {
    var b := Step(s, UpdateLeast);
    if s.retention.least.Some? {
      assert IsLeast(b.events, Least(b.events)) && IsLeast(b.events, s.retention.least.value);
    } else if s.retention.seen < s.nextSeq {
      assert s.nextSeq in b.events;
    } else {
      assert b.events == {};
    }
  }

  /** No other statement spoils the minimum. */
  lemma OthersKeepExact(s: State, action: Action)
    requires Ok(s) && Exact(s) && action != UpdateLeast
    ensures Exact(Step(s, action)) && Step(s, action).minAvailableSeq == s.minAvailableSeq
  {
    var b := Step(s, action);
    if b.events != s.events {
      StepKeepsOk(s, action);
      assert s.nextSeq < b.nextSeq;
      assert b.minAvailableSeq in b.events;
      assert IsLeast(b.events, Least(b.events)) && IsLeast(b.events, b.minAvailableSeq);
    }
  }

  /** Starting exact, retention never moves the minimum back. */
  lemma UpdateMovesForward(s: State)
    requires Ok(s) && Exact(s) && Enabled(s, UpdateLeast)
    ensures s.minAvailableSeq <= Step(s, UpdateLeast).minAvailableSeq
  {
    if s.retention.least.Some? {
      assert s.retention.least.value in s.events;
    }
  }

  lemma ExactStepIff(s: State, action: Action)
    requires Ok(s) && Exact(s)
    ensures Exact(Step(s, action)) <==> (action == UpdateLeast && Enabled(s, UpdateLeast) ==> InTime(s))
    ensures s.minAvailableSeq <= Step(s, action).minAvailableSeq
  {
    hide Ok, Exact;
    if action != UpdateLeast {
      OthersKeepExact(s, action);
    } else if Enabled(s, UpdateLeast) {
      UpdateIsExactIff(s);
      UpdateMovesForward(s);
    }
  }

  ghost predicate AlwaysExact(s: State, actions: seq<Action>) {
    forall i :: 0 <= i <= |actions| ==> Exact(Run(s, actions[..i]))
  }

  ghost predicate UpdatesInTime(s: State, actions: seq<Action>) {
    forall i :: 0 <= i < |actions| && actions[i] == UpdateLeast && Enabled(Run(s, actions[..i]), UpdateLeast) ==>
      InTime(Run(s, actions[..i]))
  }

  lemma FrontOf(s: State, actions: seq<Action>)
    requires |actions| > 0
    ensures var front, last := actions[..|actions| - 1], actions[|actions| - 1];
      var f := Run(s, front);
      && (AlwaysExact(s, actions) <==> AlwaysExact(s, front) && Exact(Run(s, actions)))
      && (UpdatesInTime(s, actions) <==>
            UpdatesInTime(s, front) && (last == UpdateLeast && Enabled(f, UpdateLeast) ==> InTime(f)))
  {
    hide Run, Step, Exact, Enabled;
    var front := actions[..|actions| - 1];
    forall i | 0 <= i < |actions| ensures front[..i] == actions[..i] && actions[..i] == front[..i] {
    }
    assert actions[..|actions|] == actions;
    if AlwaysExact(s, front) && Exact(Run(s, actions)) {
      forall i | 0 <= i <= |actions| ensures Exact(Run(s, actions[..i])) {
        assert i < |actions| ==> front[..i] == actions[..i];
      }
    }
  }

  /**
   * Over a whole run the minimum is exact at every moment if and only if every update comes in time; it then
   * never moves back, so a cursor it has refused stays refused.
   */
  lemma {:induction false} AlwaysExactIff(s: State, actions: seq<Action>)
    requires Ok(s) && Exact(s)
    ensures AlwaysExact(s, actions) <==> UpdatesInTime(s, actions)
    ensures AlwaysExact(s, actions) ==> s.minAvailableSeq <= Run(s, actions).minAvailableSeq
  {
    hide Step, Exact, Ok, Enabled;
    if |actions| > 0 {
      var front, last := actions[..|actions| - 1], actions[|actions| - 1];
      AlwaysExactIff(s, front);
      FrontOf(s, actions);
      if AlwaysExact(s, front) {
        RunKeepsOk(s, front);
        assert front[..|front|] == front;
        ExactStepIff(Run(s, front), last);
      }
    } else {
      assert actions[..0] == actions;
    }
  }

  /**
   * The failing case is reachable: a writer commits event 1 while retention waits, the minimum becomes 2,
   * a client at cursor 0 is refused although its event is there, and the next retention moves it back to 1.
   */
  lemma OverlapOvershoots()
    ensures
      var all := [Begin(0), Lock(0), Number(0), Write(0), DeleteOld(0), ScanLeast, Commit(0), UpdateLeast];
      var s := Run(START, all);
      && s.events == {1} && s.nextSeq == 1 && s.minAvailableSeq == 2 && !Exact(s)
      && Step(Step(Step(s, DeleteOld(0)), ScanLeast), UpdateLeast).minAvailableSeq == 1
  {
    var all := [Begin(0), Lock(0), Number(0), Write(0), DeleteOld(0), ScanLeast, Commit(0), UpdateLeast];
    WriterIsReady(all);
    var ready := State(0, 1, {}, Some(0), map[0 := Holding(1, {1})], Idle);
    RunOneMore(all, 4);
    assert Old(ready, 0) == {};
    assert Run(START, all[..5]) == ready.(retention := Deleted({}));
    RunOneMore(all, 5);
    assert Run(START, all[..6]) == ready.(retention := Scanned({}, None, 0));
    RunOneMore(all, 6);
    var committed := State(1, 1, {1}, None, map[0 := Finished], Scanned({}, None, 0));
    assert Run(START, all[..7]) == committed;
    RunOneMore(all, 7);
    assert all[..8] == all;
    NextRetentionStepsBack(Step(committed, UpdateLeast));
  }

  lemma WriterIsReady(actions: seq<Action>)
    requires [Begin(0), Lock(0), Number(0), Write(0)] <= actions
    ensures Run(START, actions[..4]) == State(0, 1, {}, Some(0), map[0 := Holding(1, {1})], Idle)
  {
    RunOneMore(actions, 0);
    RunOneMore(actions, 1);
    assert Run(START, actions[..2]) == State(0, 1, {}, Some(0), map[0 := Holding(0, {})], Idle);
    RunOneMore(actions, 2);
    assert Run(START, actions[..3]) == State(0, 1, {}, Some(0), map[0 := Holding(1, {})], Idle);
    RunOneMore(actions, 3);
    assert {} + {1} == {1};
    assert map[0 := Holding(1, {})][0 := Holding(1, {1})] == map[0 := Holding(1, {1})];
  }

  lemma NextRetentionStepsBack(s: State)
    requires s.events == {1} && s.nextSeq == 1 && s.minAvailableSeq == 2 && s.lock == None && s.retention == Idle
    ensures !Exact(s) && Step(Step(Step(s, DeleteOld(0)), ScanLeast), UpdateLeast).minAvailableSeq == 1
  {
    assert IsLeast({1}, 1) && IsLeast({1}, Least({1}));
    assert Old(s, 0) == {};
    assert s.events - {} == {1};
  }

  lemma RunOneMore(actions: seq<Action>, n: nat)
    requires n < |actions|
    ensures Run(START, actions[..n + 1]) == Step(Run(START, actions[..n]), actions[n])
  {
    assert actions[..n + 1][..n] == actions[..n];
  }
}
