/** What becomes of the two tokens of a session: how long they work, and what ends them for good. */
module Tokens {
  import opened Domain
  import opened Sessions

  const MICROS_PER_MINUTE: nat := 60_000_000

  // ----- endings -----

  /** Once a session is revoked, nothing that happens later lets it act again. */
  lemma RevokedIsOut(s: Auth, id: nat, moves: seq<Move>, access: Token, t: nat)
    requires AuthOk(s) && id in s.sessions && s.sessions[id].revokedAt.Some?
    ensures var b := DoAll(s, moves);
      && id in b.sessions && b.sessions[id] == s.sessions[id]
      && !Authenticates(b, access, id) && !Enabled(b, LockRow(t, id))
  {
    RunGoesOn(s, moves);
    assert SessionGoesOn(s, DoAll(s, moves), id);
  }

  /** After its logout a session never acts again, and no other session notices. */
  lemma LogoutEnds(s: Auth, id: nat, moves: seq<Move>, access: Token, t: nat)
    requires Reachable(s) && id in s.sessions && Enabled(s, Move.Logout(id))
    ensures var out := Do(s, Move.Logout(id));
      var b := DoAll(out, moves);
      && out == s.(sessions := out.sessions) && out.sessions.Keys == s.sessions.Keys
      && (forall x :: x in s.sessions && x != id ==> out.sessions[x] == s.sessions[x])
      && id in b.sessions && !Authenticates(b, access, id) && !Enabled(b, LockRow(t, id))
  {
    ReachableIsOk(s);
    MoveKeepsOk(s, Move.Logout(id));
    RevokedIsOut(Do(s, Move.Logout(id)), id, moves, access, t);
  }

  /** A changed or reset password ends every session of the user, and no one else's. */
  lemma UserRevocationEnds(s: Auth, user: Uuid, moves: seq<Move>, access: Token, id: nat, t: nat)
    requires Reachable(s) && Enabled(s, Move.RevokeUser(user)) && id in s.sessions
    ensures var out := Do(s, Move.RevokeUser(user));
      var b := DoAll(out, moves);
      && out == s.(sessions := out.sessions) && out.sessions.Keys == s.sessions.Keys
      && (s.sessions[id].seat.user != user ==> out.sessions[id] == s.sessions[id])
      && (s.sessions[id].seat.user == user ==>
            id in b.sessions && !Authenticates(b, access, id) && !Enabled(b, LockRow(t, id)))
  {
    ReachableIsOk(s);
    MoveKeepsOk(s, Move.RevokeUser(user));
    if s.sessions[id].seat.user == user {
      RevokedIsOut(Do(s, Move.RevokeUser(user)), id, moves, access, t);
    }
  }

  /** Revoking a device ends its sessions and leaves those of every other device, the user's own included. */
  lemma DeviceRevocationEnds(s: Auth, seat: Seat, moves: seq<Move>, access: Token, id: nat, t: nat)
    requires Reachable(s) && Enabled(s, Move.RevokeDevice(seat)) && id in s.sessions
    ensures var out := Do(s, Move.RevokeDevice(seat));
      var b := DoAll(out, moves);
      && out == s.(sessions := out.sessions, devices := out.devices) && out.sessions.Keys == s.sessions.Keys
      && (forall other :: other != seat ==>
            (other in out.devices <==> other in s.devices)
            && (other in s.devices ==> out.devices[other] == s.devices[other]))
      && SeatRevoked(b, seat) && (forall u :: !Enabled(b, CheckLogin(u, seat)))
      && (s.sessions[id].seat != seat ==> out.sessions[id] == s.sessions[id])
      && (s.sessions[id].seat == seat ==>
            id in b.sessions && !Authenticates(b, access, id) && !Enabled(b, LockRow(t, id)))
  {
    hide AuthOk, DoAll, NoneLocked;
    ReachableIsOk(s);
    MoveKeepsOk(s, Move.RevokeDevice(seat));
    var out := Do(s, Move.RevokeDevice(seat));
    DeviceIsOut(s, seat, moves);
    if s.sessions[id].seat == seat {
      RevokedIsOut(out, id, moves, access, t);
    }
  }

  lemma DeviceIsOut(s: Auth, seat: Seat, moves: seq<Move>)
    requires AuthOk(s) && Enabled(s, Move.RevokeDevice(seat))
    ensures SeatRevoked(DoAll(Do(s, Move.RevokeDevice(seat)), moves), seat)
  {
    MoveKeepsOk(s, Move.RevokeDevice(seat));
    assert SeatRevoked(Do(s, Move.RevokeDevice(seat)), seat);
    RunGoesOn(Do(s, Move.RevokeDevice(seat)), moves);
  }

  /** A reused token ends its own family only. */
  lemma OtherFamiliesStay(s: Auth, t: nat, id: nat)
    requires Enabled(s, KillFamily(t)) && id in s.sessions
    ensures var out := Do(s, KillFamily(t));
      && out.sessions.Keys == s.sessions.Keys && out.devices == s.devices && out.used == s.used
      && (s.sessions[id].family != s.flights[t].family ==> out.sessions[id] == s.sessions[id])
      && (s.sessions[id].family == s.flights[t].family ==> out.sessions[id].revokedAt.Some?)
  {
  }

  /** Rotating the epoch signs everybody out. */
  lemma EverybodyIsOut(s: Auth, moves: seq<Move>, access: Token, id: nat, t: nat)
    requires Reachable(s) && Enabled(s, RevokeAll) && id in s.sessions
    ensures var b := DoAll(Do(s, RevokeAll), moves);
      id in b.sessions && !Authenticates(b, access, id) && !Enabled(b, LockRow(t, id))
  {
    ReachableIsOk(s);
    MoveKeepsOk(s, RevokeAll);
    RevokedIsOut(Do(s, RevokeAll), id, moves, access, t);
  }

  /** A user who is not active has no session that acts, and gets none. */
  lemma InactiveUserStaysOut(s: Auth, user: Uuid, moves: seq<Move>, access: Token, id: nat, t: nat, device: Uuid)
    requires Reachable(s) && user !in s.active
    ensures var b := DoAll(s, moves);
      && !Enabled(b, CheckLogin(t, Seat(user, device)))
      && (id in b.sessions && b.sessions[id].seat.user == user ==>
            !Authenticates(b, access, id) && !Enabled(b, LockRow(t, id)))
  {
    ReachableIsOk(s);
    RunGoesOn(s, moves);
  }

  // ----- lifetimes -----

  /**
   * A sign-in opens one session of the seat that passed the check: its access token works for exactly fifteen
   * minutes, its refresh token for exactly thirty days, as long as user and device are in good standing.
   */
  lemma SignInLasts(s: Auth, t: nat, id: nat, family: nat, access: Token, refresh: Token, wait: nat, u: nat)
    requires Reachable(s) && Enabled(s, Issue(t, id, family, access, refresh)) && u !in s.flights
    ensures var b := Do(Do(s, Issue(t, id, family, access, refresh)), Tick(wait));
      var seat := s.logins[t];
      && id in b.sessions && b.sessions[id].seat == seat
      && b.devices == (if seat in s.devices then s.devices else s.devices[seat := None])
      && (forall x :: x in s.sessions ==> x in b.sessions && b.sessions[x] == s.sessions[x])
      && (Authenticates(b, access, id) <==>
            seat.user in s.active && !SeatRevoked(s, seat) && wait < 15 * MICROS_PER_MINUTE)
      && (Enabled(Do(b, LookUp(u, refresh)), LockRow(u, id)) <==>
            seat.user in s.active && !SeatRevoked(s, seat) && wait < 30 * 24 * 60 * MICROS_PER_MINUTE)
  {
    hide TokensDistinct, RowsOk;
    ReachableIsOk(s);
    var begun := Do(s, Issue(t, id, family, access, refresh));
    var b := Do(begun, Tick(wait));
    assert refresh !in b.used;
    NewSessionIsFree(s, id);
    assert !IsLocked(Do(b, LookUp(u, refresh)), id);
  }

  lemma NewSessionIsFree(s: Auth, id: nat)
    requires AuthOk(s) && id !in s.sessions
    ensures !IsLocked(s, id)
  {
    forall t | t in s.flights && s.flights[t].Locked? ensures s.flights[t].id != id {
      assert FlightOk(s, s.flights[t]);
    }
  }

  /**
   * A rotation swaps both tokens: the new access token works for exactly fifteen minutes, the old one no more, the
   * old refresh token is on record as used, and neither the deadline of the session nor any other session moves.
   */
  lemma RotationSwaps(s: Auth, t: nat, access: Token, refresh: Token, wait: nat, other: nat)
    requires Reachable(s) && Enabled(s, Rotate(t, access, refresh))
    ensures var (id, token) := (s.flights[t].id, s.flights[t].token);
      var x, out := s.sessions[id], Do(s, Rotate(t, access, refresh));
      var b := Do(out, Tick(wait));
      && id in b.sessions && b.sessions[id].refresh == refresh
      && b.sessions[id].refreshExpiresAt == x.refreshExpiresAt
      && (Authenticates(b, access, id) <==>
            x.seat.user in s.active && !SeatRevoked(s, x.seat) && wait < 15 * MICROS_PER_MINUTE)
      && !Authenticates(b, x.access, other)
      && token == x.refresh && token in out.used && out.used[token] == UsedToken(x.family, x.refreshExpiresAt)
      && (other in s.sessions && other != id ==> out.sessions[other] == s.sessions[other])
  {
    ReachableIsOk(s);
    assert FlightOk(s, s.flights[t]);
    assert RowOk(s, s.sessions[s.flights[t].id]);
  }

  /** A used token stays on record, with its family, until the deadline of its session: till then reuse is noticed. */
  lemma {:induction false} UsedTokenIsRemembered(s: Auth, token: Token, moves: seq<Move>)
    requires AuthOk(s) && token in s.used && DoAll(s, moves).clock < s.used[token].expiresAt
    ensures token in DoAll(s, moves).used && DoAll(s, moves).used[token] == s.used[token]
  {
    if |moves| > 0 {
      var front, last := moves[..|moves| - 1], moves[|moves| - 1];
      var b := DoAll(s, front);
      MovesKeepOk(s, front);
      MoveGoesOn(b, last);
      UsedTokenIsRemembered(s, token, front);
      NextMoveRemembers(b, token, last);
    }
  }

  lemma NextMoveRemembers(s: Auth, token: Token, m: Move)
    requires AuthOk(s) && token in s.used && Do(s, m).clock < s.used[token].expiresAt && s.clock <= Do(s, m).clock
    ensures token in Do(s, m).used && Do(s, m).used[token] == s.used[token]
  {
    hide Revoked;
    if m.Rotate? && Enabled(s, m) {
      assert FlightOk(s, s.flights[m.t]);
      assert RowOk(s, s.sessions[s.flights[m.t].id]);
    }
  }

  lemma ReuseIsNoticed(s: Auth, token: Token, moves: seq<Move>, t: nat)
    requires Reachable(s) && token in s.used && t !in DoAll(s, moves).flights
    requires DoAll(s, moves).clock < s.used[token].expiresAt
    ensures Do(DoAll(s, moves), LookUp(t, token)).flights[t] == Reused(s.used[token].family)
  {
    ReachableIsOk(s);
    UsedTokenIsRemembered(s, token, moves);
  }
}
