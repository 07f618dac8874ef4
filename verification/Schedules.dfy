/** What other devices and jobs do while a client makes its calls, and what a client may count on meanwhile. */
module Schedules {
  import opened Domain
  import opened Accounts
  import opened Invariant
  import opened Evolution
  import opened Runs
  import opened Retention

  /**
   * What may happen at one API call: first other transactions commit, then the request or its
   * response may be lost. A schedule is finite, and when it is used up the server is quiet; since
   * every schedule is allowed, so is every finite pattern of interference and failure.
   */
  datatype Turn = Turn(others: seq<Action>, requestLost: bool, responseLost: bool)

  /** Nobody starts a new epoch. */
  predicate Steady(schedule: seq<Turn>) {
    forall i :: 0 <= i < |schedule| ==> KeepsEpoch(schedule[i].others)
  }

  function Passes(schedule: seq<Turn>): nat {
    if schedule == [] then 0 else Elapsed(schedule[0].others) + Passes(schedule[1..])
  }

  /** Every retention keeps `period` days, and no more time than that passes. */
  predicate Spares(schedule: seq<Turn>, period: nat) {
    && Passes(schedule) <= period * DAY
    && forall i :: 0 <= i < |schedule| ==> KeepsDays(schedule[i].others, period)
  }

  /**
   * No retention reaches an event that is new when the schedule begins, and nobody starts a new epoch: creates,
   * trashes, restores, purges and cleanups may come in any order.
   */
  ghost predicate Gentle(schedule: seq<Turn>) {
    Steady(schedule) && exists period: nat :: Spares(schedule, period)
  }

  /** No retention of the schedule reaches an event after number k. */
  ghost predicate SecureFor(a: Account, k: nat, schedule: seq<Turn>) {
    exists period: nat :: Spares(schedule, period) && Secure(a, k, period, Passes(schedule))
  }

  predicate CalmTurns(schedule: seq<Turn>) {
    forall i :: 0 <= i < |schedule| ==> Calm(schedule[i].others)
  }

  /** From state and schedule to a later state and what is left of the schedule. */
  ghost predicate Onward(a: Account, schedule: seq<Turn>, b: Account, rest: seq<Turn>) {
    && Follows(a, b)
    && |rest| <= |schedule|
    && (Steady(schedule) ==> Steady(rest) && a.epoch == b.epoch)
    && (Gentle(schedule) ==> Gentle(rest))
    && (CalmTurns(schedule) ==> CalmTurns(rest) && Still(a, b))
    && forall k :: SecureFor(a, k, schedule) ==> SecureFor(b, k, rest)
  }

  /** Either a turn was used up, or nothing happened. */
  predicate TurnOrNothing(a: Account, schedule: seq<Turn>, b: Account, rest: seq<Turn>) {
    |rest| < |schedule| || (schedule == rest && a == b)
  }

  lemma OnwardItself(a: Account, schedule: seq<Turn>)
    requires Inv(a)
    ensures Onward(a, schedule, a, schedule)
  {
    hide Inv, Gentle, SecureFor, Steady, CalmTurns;
    FollowsItself(a);
  }

  lemma OnwardTransitively(a: Account, s: seq<Turn>, b: Account, t: seq<Turn>, c: Account, u: seq<Turn>)
    requires Inv(a) && Onward(a, s, b, t) && Onward(b, t, c, u)
    ensures Onward(a, s, c, u)
  {
    hide Inv, Evolves, Gentle, SecureFor, Steady, CalmTurns;
    FollowsTransitively(a, b, c);
  }

  lemma OnwardGives(a: Account, s: seq<Turn>, b: Account, t: seq<Turn>)
    requires Onward(a, s, b, t)
    ensures Follows(a, b) && Inv(b) && a.nextSeq <= b.nextSeq && a.clock <= b.clock && |t| <= |s|
    ensures Steady(s) ==> Steady(t) && a.epoch == b.epoch
    ensures Gentle(s) ==> Gentle(t)
    ensures CalmTurns(s) ==> Still(a, b)
  {
    hide Gentle, SecureFor, Steady, CalmTurns;
  }

  lemma OnwardSecures(a: Account, s: seq<Turn>, b: Account, t: seq<Turn>, k: nat)
    requires Onward(a, s, b, t) && SecureFor(a, k, s)
    ensures SecureFor(b, k, t)
  {
    hide Follows, Gentle, SecureFor, Steady, CalmTurns;
  }

  // ----- cursors that retention spares -----

  lemma EmptyIsGentle()
    ensures Gentle([]) && CalmTurns([])
  {
    assert Spares([], 0);
  }

  lemma SparesRest(schedule: seq<Turn>, period: nat)
    requires schedule != [] && Spares(schedule, period)
    ensures Spares(schedule[1..], period) && KeepsDays(schedule[0].others, period)
  {
    hide KeepsDays;
    assert forall i :: 0 <= i < |schedule| - 1 ==> schedule[1..][i] == schedule[i + 1];
  }

  lemma RestIsGentle(schedule: seq<Turn>)
    requires Gentle(schedule)
    ensures Gentle(Rest(schedule))
  {
    if schedule != [] {
      var period: nat :| Spares(schedule, period);
      SparesRest(schedule, period);
      assert forall i :: 0 <= i < |schedule| - 1 ==> schedule[1..][i] == schedule[i + 1];
    }
  }

  /** The newest event's number makes a secure cursor on any gentle schedule. */
  lemma HeadIsSecureFor(a: Account, schedule: seq<Turn>)
    requires Inv(a) && Gentle(schedule)
    ensures SecureFor(a, a.nextSeq, schedule)
  {
    var period: nat :| Spares(schedule, period);
    HeadIsSecure(a, period, Passes(schedule));
  }

  lemma LaterIsSecureFor(a: Account, k: nat, m: nat, schedule: seq<Turn>)
    requires SecureFor(a, k, schedule) && k <= m <= a.nextSeq
    ensures SecureFor(a, m, schedule)
  {
    var period: nat :| Spares(schedule, period) && Secure(a, k, period, Passes(schedule));
    assert Secure(a, m, period, Passes(schedule));
  }

  lemma SecureIsAvailable(a: Account, k: nat, schedule: seq<Turn>)
    requires SecureFor(a, k, schedule)
    ensures k <= a.nextSeq && a.minAvailableSeq <= k + 1
  {
    var period: nat :| Spares(schedule, period) && Secure(a, k, period, Passes(schedule));
  }

  /** So does any cursor that is accepted now, if the schedule holds no retention. */
  lemma AcceptedIsSecureFor(a: Account, k: nat, schedule: seq<Turn>)
    requires k <= a.nextSeq && a.minAvailableSeq <= k + 1
    requires forall i :: 0 <= i < |schedule| ==> KeepsEvents(schedule[i].others)
    ensures SecureFor(a, k, schedule)
  {
    var period := a.clock + Passes(schedule);
    assert period <= period * DAY;
    forall i | 0 <= i < |schedule| ensures KeepsDays(schedule[i].others, period) {
      assert KeepsEvents(schedule[i].others);
    }
    assert Spares(schedule, period) && Secure(a, k, period, Passes(schedule));
  }

  lemma TurnKeepsSecure(a: Account, schedule: seq<Turn>, k: nat)
    requires Inv(a) && schedule != [] && SecureFor(a, k, schedule)
    ensures SecureFor(Met(a, schedule), k, schedule[1..])
  {
    hide Inv, Secure, Spares;
    var period: nat :| Spares(schedule, period) && Secure(a, k, period, Passes(schedule));
    SparesRest(schedule, period);
    RunKeepsSecure(a, schedule[0].others, k, period, Passes(schedule));
  }

  // ----- what a call finds -----

  function Rest(schedule: seq<Turn>): seq<Turn> {
    if schedule == [] then [] else schedule[1..]
  }

  /** What the next API call finds when its request arrives. */
  ghost function Met(a: Account, schedule: seq<Turn>): Account {
    if schedule == [] then a else Run(a, schedule[0].others)
  }

  lemma MetIsOnward(a: Account, schedule: seq<Turn>)
    requires Inv(a)
    ensures Onward(a, schedule, Met(a, schedule), Rest(schedule))
  {
    hide Inv, Evolves, SecureFor, Gentle;
    if schedule == [] {
      OnwardItself(a, schedule);
      return;
    }
    var others := schedule[0].others;
    RunFollows(a, others);
    RunKeepsEra(a, others);
    assert forall i :: 0 <= i < |schedule| - 1 ==> schedule[1..][i] == schedule[i + 1];
    if CalmTurns(schedule) { RunIsStill(a, others); }
    if Gentle(schedule) { RestIsGentle(schedule); }
    forall k | SecureFor(a, k, schedule) ensures SecureFor(Met(a, schedule), k, schedule[1..]) {
      TurnKeepsSecure(a, schedule, k);
    }
  }

  /** The engine's own transactions take no time and delete nothing. */
  lemma OwnStepIsOnward(a: Account, schedule: seq<Turn>, action: Action)
    requires Inv(a) && IsCalm(action) && !action.RetainEvents? && !action.RotateEpoch?
    ensures Onward(a, schedule, Step(a, action), schedule)
  {
    hide Inv, Evolves, Step, Secure, Spares, Gentle, Steady, CalmTurns;
    InvHasRows(a);
    StepFollows(a, action);
    StepKeepsEra(a, action);
    StepIsStill(a, action);
    forall k | SecureFor(a, k, schedule) ensures SecureFor(Step(a, action), k, schedule) {
      var period: nat :| Spares(schedule, period) && Secure(a, k, period, Passes(schedule));
      StepKeepsSecure(a, action, k, period, Passes(schedule));
    }
  }
}
