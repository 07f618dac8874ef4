/**
 * Sessions and refresh-token rotation. Sign-in and refresh take several statements, between which
 * other transactions commit; a session row being rotated is locked until its transaction ends.
 */
module Sessions {
  import opened Domain

  const ACCESS_PERIOD: nat := 15 * MINUTE
  const REFRESH_PERIOD: nat := 30 * DAY

  /** Token hashes, families and session ids are random and do not repeat; plain numbers stand for them. */
  type Token = nat

  datatype Seat = Seat(user: Uuid, device: Uuid)

  /** A row of sessions; issuedAt and rotatedAt tell when it was inserted and last given new tokens. */
  datatype Session = Session(
    seat: Seat, family: nat, access: Token, refresh: Token,
    issuedAt: Time, rotatedAt: Time, expiresAt: Time, refreshExpiresAt: Time, revokedAt: Option<Time>)

  datatype UsedToken = UsedToken(family: nat, expiresAt: Time)

  /** A refresh under way: the used-token lookup is done, or the session row is locked and checked. */
  datatype Flight = Looked(token: Token) | Reused(family: nat) | Locked(token: Token, id: nat)

  /** `minted`, `families` and `accepted` remember every token, family and accepted refresh token there ever was. */
  datatype Auth = Auth(
    clock: Time,
    active: set<Uuid>,
    devices: map<Seat, Option<Time>>,
    sessions: map<nat, Session>,
    used: map<Token, UsedToken>,
    flights: map<nat, Flight>,
    logins: map<nat, Seat>,
    minted: set<Token>,
    families: set<nat>,
    accepted: seq<Token>)

  datatype Move =
    | Tick(elapsed: nat)
    | CheckLogin(t: nat, seat: Seat)
    | Issue(t: nat, id: nat, family: nat, access: Token, refresh: Token)
    | LookUp(t: nat, token: Token)
    | KillFamily(t: nat)
    | LockRow(t: nat, id: nat)
    | Rotate(t: nat, access: Token, refresh: Token)
    | Drop(t: nat)
    | Logout(id: nat)
    | RevokeUser(user: Uuid)
    | RevokeAll
    | RevokeDevice(seat: Seat)
    | CleanUsed

  // ----- the statements -----

  predicate IsLocked(s: Auth, id: nat) {
    exists t :: t in s.flights && s.flights[t].Locked? && s.flights[t].id == id
  }

  predicate SeatRevoked(s: Auth, seat: Seat) {
    seat in s.devices && s.devices[seat].Some?
  }

  /** UPDATE sessions SET revoked_at = now WHERE ... AND revoked_at IS NULL. */
  function Revoked(s: Auth, which: set<nat>): map<nat, Session> {
    map id | id in s.sessions ::
      var x := s.sessions[id];
      if id in which && x.revokedAt.None? then x.(revokedAt := Some(s.clock)) else x
  }

  function OfFamily(s: Auth, family: nat): set<nat> {
    set id | id in s.sessions && s.sessions[id].family == family
  }

  function OfUser(s: Auth, user: Uuid): set<nat> {
    set id | id in s.sessions && s.sessions[id].seat.user == user
  }

  function OfSeat(s: Auth, seat: Seat): set<nat> {
    set id | id in s.sessions && s.sessions[id].seat == seat
  }

  predicate NoneLocked(s: Auth, which: set<nat>) {
    forall id :: id in which ==> !IsLocked(s, id)
  }

  function NewSession(s: Auth, seat: Seat, family: nat, access: Token, refresh: Token): Session {
    Session(seat, family, access, refresh, s.clock, s.clock, s.clock + ACCESS_PERIOD, s.clock + REFRESH_PERIOD, None)
  }

  /** What the locked row must show before it is rotated. */
  predicate MayRefresh(s: Auth, x: Session) {
    && x.seat.user in s.active && x.revokedAt.None? && !SeatRevoked(s, x.seat) && s.clock < x.refreshExpiresAt
  }

  predicate FreshPair(s: Auth, access: Token, refresh: Token) {
    access !in s.minted && refresh !in s.minted && access != refresh
  }

  /** An UPDATE of a locked row waits, so it happens when none of its rows is locked. */
  predicate Enabled(s: Auth, m: Move) {
    match m
    case Tick(_) => true
    case CheckLogin(t, seat) => t !in s.logins && seat.user in s.active && !SeatRevoked(s, seat)
    case Issue(t, id, family, access, refresh) =>
      t in s.logins && id !in s.sessions && family !in s.families && FreshPair(s, access, refresh)
    case LookUp(t, _) => t !in s.flights
    case KillFamily(t) => t in s.flights && s.flights[t].Reused? && NoneLocked(s, OfFamily(s, s.flights[t].family))
    case LockRow(t, id) =>
      && t in s.flights && s.flights[t].Looked? && id in s.sessions && !IsLocked(s, id)
      && s.sessions[id].refresh == s.flights[t].token && MayRefresh(s, s.sessions[id])
    case Rotate(t, access, refresh) =>
      t in s.flights && s.flights[t].Locked? && s.flights[t].id in s.sessions && FreshPair(s, access, refresh)
    case Drop(t) => t in s.flights
    case Logout(id) => !IsLocked(s, id)
    case RevokeUser(user) => NoneLocked(s, OfUser(s, user))
    case RevokeAll => NoneLocked(s, s.sessions.Keys)
    case RevokeDevice(seat) => seat in s.devices && NoneLocked(s, OfSeat(s, seat))
    case CleanUsed => true
  }

  function Issued(s: Auth, t: nat, id: nat, family: nat, access: Token, refresh: Token): Auth
    requires t in s.logins
  {
    var seat := s.logins[t];
    s.(devices := if seat in s.devices then s.devices else s.devices[seat := None],
       sessions := s.sessions[id := NewSession(s, seat, family, access, refresh)],
       logins := s.logins - {t}, minted := s.minted + {access, refresh}, families := s.families + {family})
  }

  function Rotated(s: Auth, t: nat, access: Token, refresh: Token): Auth
    requires t in s.flights && s.flights[t].Locked? && s.flights[t].id in s.sessions
  {
    var f := s.flights[t];
    var x := s.sessions[f.id];
    var y := x.(access := access, refresh := refresh, rotatedAt := s.clock, expiresAt := s.clock + ACCESS_PERIOD);
    s.(used := s.used[f.token := UsedToken(x.family, x.refreshExpiresAt)],
       sessions := s.sessions[f.id := y],
       flights := s.flights - {t}, minted := s.minted + {access, refresh}, accepted := s.accepted + [f.token])
  }

  function Do(s: Auth, m: Move): Auth {
    if !Enabled(s, m) then s
    else match m
      case Tick(elapsed) => s.(clock := s.clock + elapsed)
      case CheckLogin(t, seat) => s.(logins := s.logins[t := seat])
      case Issue(t, id, family, access, refresh) => Issued(s, t, id, family, access, refresh)
      case LookUp(t, token) =>
        s.(flights := s.flights[t := if token in s.used then Reused(s.used[token].family) else Looked(token)])
      case KillFamily(t) => s.(sessions := Revoked(s, OfFamily(s, s.flights[t].family)), flights := s.flights - {t})
      case LockRow(t, id) => s.(flights := s.flights[t := Locked(s.flights[t].token, id)])
      case Rotate(t, access, refresh) => Rotated(s, t, access, refresh)
      case Drop(t) => s.(flights := s.flights - {t})
      case Logout(id) => s.(sessions := Revoked(s, {id}))
      case RevokeUser(user) => s.(sessions := Revoked(s, OfUser(s, user)))
      case RevokeAll => s.(sessions := Revoked(s, s.sessions.Keys))
      case RevokeDevice(seat) =>
        s.(devices := if s.devices[seat].None? then s.devices[seat := Some(s.clock)] else s.devices,
           sessions := Revoked(s, OfSeat(s, seat)))
      case CleanUsed => s.(used := map k | k in s.used && s.used[k].expiresAt > s.clock :: s.used[k])
  }

  function DoAll(s: Auth, moves: seq<Move>): Auth {
    if |moves| == 0 then s else Do(DoAll(s, moves[..|moves| - 1]), moves[|moves| - 1])
  }

  function NewAuth(clock: Time, active: set<Uuid>): Auth {
    Auth(clock, active, map[], map[], map[], map[], map[], {}, {}, [])
  }

  /** LookupAccess: the session that a bearer token stands for, if it may act now. */
  predicate Authenticates(s: Auth, access: Token, id: nat) {
    && id in s.sessions && s.sessions[id].access == access
    && s.sessions[id].seat.user in s.active && !SeatRevoked(s, s.sessions[id].seat)
    && s.sessions[id].revokedAt.None? && s.clock < s.sessions[id].expiresAt
  }

  // ----- what every statement keeps -----

  predicate TokensDistinct(sessions: map<nat, Session>) {
    forall i, j :: i in sessions && j in sessions && i != j ==>
      sessions[i].refresh != sessions[j].refresh && sessions[i].access != sessions[j].access
      && sessions[i].family != sessions[j].family
  }

  predicate RowOk(s: Auth, x: Session) {
    && x.access in s.minted && x.refresh in s.minted && x.family in s.families
    && x.refresh !in s.accepted
    && x.issuedAt <= x.rotatedAt <= s.clock
    && x.refreshExpiresAt == x.issuedAt + REFRESH_PERIOD && x.expiresAt == x.rotatedAt + ACCESS_PERIOD
  }

  predicate RowsOk(s: Auth) {
    forall id :: id in s.sessions ==> RowOk(s, s.sessions[id])
  }

  predicate FlightOk(s: Auth, f: Flight) {
    match f
    case Looked(_) => true
    case Reused(family) => family in s.families
    case Locked(token, id) => id in s.sessions && s.sessions[id].refresh == token && s.sessions[id].revokedAt.None?
  }

  predicate FlightsOk(s: Auth) {
    && (forall t :: t in s.flights ==> FlightOk(s, s.flights[t]))
    && (forall t, u :: t in s.flights && u in s.flights && t != u && s.flights[t].Locked? && s.flights[u].Locked? ==>
          s.flights[t].id != s.flights[u].id)
  }

  predicate UsedOk(s: Auth) {
    && (forall k :: k in s.used ==> k in s.accepted && s.used[k].family in s.families)
    && (forall k :: k in s.accepted ==> k in s.minted)
    && (forall i, j :: 0 <= i < j < |s.accepted| ==> s.accepted[i] != s.accepted[j])
  }

  predicate AuthOk(s: Auth) {
    TokensDistinct(s.sessions) && RowsOk(s) && FlightsOk(s) && UsedOk(s)
  }

  lemma RevokingKeepsOk(s: Auth, b: Auth, which: set<nat>)
    requires AuthOk(s) && NoneLocked(s, which)
    requires b.sessions == Revoked(s, which) && b.flights == s.flights && b.used == s.used
    requires b.clock == s.clock && b.minted == s.minted && b.families == s.families && b.accepted == s.accepted
    ensures AuthOk(b)
  {
    forall id | id in b.sessions ensures RowOk(b, b.sessions[id]) {
      assert RowOk(s, s.sessions[id]);
    }
    forall t | t in b.flights ensures FlightOk(b, b.flights[t]) {
      assert FlightOk(s, s.flights[t]);
      if b.flights[t].Locked? {
        assert IsLocked(s, b.flights[t].id);
      }
    }
  }

  lemma DroppingKeepsOk(s: Auth, t: nat)
    requires AuthOk(s)
    ensures AuthOk(s.(flights := s.flights - {t}))
  {
    var b := s.(flights := s.flights - {t});
    assert forall id :: id in b.sessions ==> RowOk(s, b.sessions[id]);
    assert forall u :: u in b.flights ==> FlightOk(s, b.flights[u]);
  }

  lemma FlightKeepsOk(s: Auth, t: nat, f: Flight)
    requires AuthOk(s) && FlightOk(s, f) && (f.Locked? ==> !IsLocked(s, f.id))
    ensures AuthOk(s.(flights := s.flights[t := f]))
  {
    var b := s.(flights := s.flights[t := f]);
    assert forall id :: id in b.sessions ==> RowOk(s, b.sessions[id]);
    forall u | u in b.flights ensures FlightOk(b, b.flights[u]) {
      assert u != t ==> FlightOk(s, s.flights[u]);
    }
    forall u, v | u in b.flights && v in b.flights && u != v && b.flights[u].Locked? && b.flights[v].Locked?
      ensures b.flights[u].id != b.flights[v].id
    {
      assert u != t ==> IsLocked(s, s.flights[u].id);
      assert v != t ==> IsLocked(s, s.flights[v].id);
    }
  }

  lemma IssueKeepsOk(s: Auth, t: nat, id: nat, family: nat, access: Token, refresh: Token)
    requires AuthOk(s) && Enabled(s, Issue(t, id, family, access, refresh))
    ensures AuthOk(Issued(s, t, id, family, access, refresh))
  {
    var b := Issued(s, t, id, family, access, refresh);
    forall x | x in b.sessions ensures RowOk(b, b.sessions[x]) {
      assert x != id ==> RowOk(s, s.sessions[x]);
    }
    forall u | u in b.flights ensures FlightOk(b, b.flights[u]) {
      assert FlightOk(s, s.flights[u]);
    }
    forall i, j | i in b.sessions && j in b.sessions && i != j
      ensures b.sessions[i].refresh != b.sessions[j].refresh && b.sessions[i].access != b.sessions[j].access
        && b.sessions[i].family != b.sessions[j].family
    {
      assert i != id ==> RowOk(s, s.sessions[i]);
      assert j != id ==> RowOk(s, s.sessions[j]);
    }
  }

  lemma RotateKeepsRows(s: Auth, t: nat, access: Token, refresh: Token)
    requires AuthOk(s) && Enabled(s, Rotate(t, access, refresh))
    ensures RowsOk(Rotated(s, t, access, refresh)) && TokensDistinct(Rotated(s, t, access, refresh).sessions)
  {
    var b, f := Rotated(s, t, access, refresh), s.flights[t];
    assert FlightOk(s, f);
    forall x | x in b.sessions ensures RowOk(b, b.sessions[x]) {
      assert RowOk(s, s.sessions[x]);
    }
    forall i, j | i in b.sessions && j in b.sessions && i != j
      ensures b.sessions[i].refresh != b.sessions[j].refresh && b.sessions[i].access != b.sessions[j].access
        && b.sessions[i].family != b.sessions[j].family
    {
      assert RowOk(s, s.sessions[i]) && RowOk(s, s.sessions[j]);
    }
  }

  lemma RotateKeepsFlights(s: Auth, t: nat, access: Token, refresh: Token)
    requires AuthOk(s) && Enabled(s, Rotate(t, access, refresh))
    ensures FlightsOk(Rotated(s, t, access, refresh)) && UsedOk(Rotated(s, t, access, refresh))
  {
    var b, f := Rotated(s, t, access, refresh), s.flights[t];
    assert FlightOk(s, f) && RowOk(s, s.sessions[f.id]);
    forall u | u in b.flights ensures FlightOk(b, b.flights[u]) {
      assert FlightOk(s, s.flights[u]);
    }
  }

  lemma MoveKeepsOk(s: Auth, m: Move)
    requires AuthOk(s)
    ensures AuthOk(Do(s, m))
  {
    if Enabled(s, m) {
      match m
      case Tick(_) => TickKeepsOk(s, m);
      case CheckLogin(_, _) => QuietKeepsOk(s, Do(s, m));
      case Issue(t, id, family, access, refresh) => IssueKeepsOk(s, t, id, family, access, refresh);
      case LookUp(t, token) =>
        FlightKeepsOk(s, t, if token in s.used then Reused(s.used[token].family) else Looked(token));
      case KillFamily(t) =>
        var a := s.(sessions := Revoked(s, OfFamily(s, s.flights[t].family)));
        RevokingKeepsOk(s, a, OfFamily(s, s.flights[t].family));
        DroppingKeepsOk(a, t);
      case LockRow(t, id) => FlightKeepsOk(s, t, Locked(s.flights[t].token, id));
      case Rotate(t, access, refresh) =>
        RotateKeepsRows(s, t, access, refresh);
        RotateKeepsFlights(s, t, access, refresh);
      case Drop(t) => DroppingKeepsOk(s, t);
      case Logout(id) => RevokingKeepsOk(s, Do(s, m), {id});
      case RevokeUser(user) => RevokingKeepsOk(s, Do(s, m), OfUser(s, user));
      case RevokeAll => RevokingKeepsOk(s, Do(s, m), s.sessions.Keys);
      case RevokeDevice(seat) => RevokingKeepsOk(s, Do(s, m), OfSeat(s, seat));
      case CleanUsed => QuietKeepsOk(s, Do(s, m));
    }
  }

  lemma TickKeepsOk(s: Auth, m: Move)
    requires AuthOk(s) && m.Tick?
    ensures AuthOk(Do(s, m))
  {
    QuietKeepsOk(s, Do(s, m));
  }

  lemma QuietKeepsOk(s: Auth, b: Auth)
    requires AuthOk(s) && s.clock <= b.clock && b.sessions == s.sessions && b.flights == s.flights
    requires b.minted == s.minted && b.families == s.families && b.accepted == s.accepted
    requires forall k :: k in b.used ==> k in s.used && b.used[k] == s.used[k]
    ensures AuthOk(b)
  {
    forall id | id in b.sessions ensures RowOk(b, b.sessions[id]) {
      assert RowOk(s, s.sessions[id]);
    }
    forall t | t in b.flights ensures FlightOk(b, b.flights[t]) {
      assert FlightOk(s, s.flights[t]);
    }
  }

  lemma {:induction false} MovesKeepOk(s: Auth, moves: seq<Move>)
    requires AuthOk(s)
    ensures AuthOk(DoAll(s, moves))
  {
    if |moves| > 0 {
      MovesKeepOk(s, moves[..|moves| - 1]);
      MoveKeepsOk(DoAll(s, moves[..|moves| - 1]), moves[|moves| - 1]);
    }
  }

  // ----- what no statement undoes -----

  /** A session keeps its seat, family and refresh deadline; once revoked it does not change at all. */
  predicate SessionGoesOn(s: Auth, b: Auth, id: nat)
    requires id in s.sessions
  {
    && id in b.sessions
    && var x, y := s.sessions[id], b.sessions[id];
       && y.seat == x.seat && y.family == x.family
       && y.issuedAt == x.issuedAt && y.refreshExpiresAt == x.refreshExpiresAt
       && (x.revokedAt.Some? ==> y == x)
  }

  predicate GoesOn(s: Auth, b: Auth) {
    && s.clock <= b.clock && s.active == b.active && s.families <= b.families && s.accepted <= b.accepted
    && (forall seat :: seat in s.devices && SeatRevoked(s, seat) ==> SeatRevoked(b, seat))
    && (forall id :: id in s.sessions ==> SessionGoesOn(s, b, id))
    && (forall id :: id in b.sessions && id !in s.sessions ==> b.sessions[id].family !in s.families)
  }

  lemma RevokingGoesOn(s: Auth, b: Auth, which: set<nat>)
    requires b.sessions == Revoked(s, which) && s.clock <= b.clock && s.active == b.active
    requires s.families == b.families && s.accepted == b.accepted
    requires forall seat :: seat in s.devices && SeatRevoked(s, seat) ==> SeatRevoked(b, seat)
    ensures GoesOn(s, b)
  {
  }

  lemma QuietGoesOn(s: Auth, b: Auth)
    requires b.sessions == s.sessions && b.devices == s.devices && s.clock <= b.clock && s.active == b.active
    requires s.families == b.families && s.accepted == b.accepted
    ensures GoesOn(s, b)
  {
  }

  lemma IssueGoesOn(s: Auth, t: nat, id: nat, family: nat, access: Token, refresh: Token)
    requires Enabled(s, Issue(t, id, family, access, refresh))
    ensures GoesOn(s, Issued(s, t, id, family, access, refresh))
  {
  }

  lemma RotateGoesOn(s: Auth, t: nat, access: Token, refresh: Token)
    requires AuthOk(s) && Enabled(s, Rotate(t, access, refresh))
    ensures GoesOn(s, Rotated(s, t, access, refresh))
  {
    assert FlightOk(s, s.flights[t]);
  }

  lemma MoveGoesOn(s: Auth, m: Move)
    requires AuthOk(s)
    ensures GoesOn(s, Do(s, m))
  {
    hide AuthOk, GoesOn, Revoked, Issued, Rotated;
    if !Enabled(s, m) {
      QuietGoesOn(s, s);
    } else {
      match m
      case Issue(t, id, family, access, refresh) => IssueGoesOn(s, t, id, family, access, refresh);
      case Rotate(t, access, refresh) => RotateGoesOn(s, t, access, refresh);
      case KillFamily(t) => RevokingGoesOn(s, Do(s, m), OfFamily(s, s.flights[t].family));
      case Logout(id) => RevokingGoesOn(s, Do(s, m), {id});
      case RevokeUser(user) => RevokingGoesOn(s, Do(s, m), OfUser(s, user));
      case RevokeAll => RevokingGoesOn(s, Do(s, m), s.sessions.Keys);
      case RevokeDevice(seat) => RevokingGoesOn(s, Do(s, m), OfSeat(s, seat));
      case _ => QuietGoesOn(s, Do(s, m));
    }
  }

  lemma GoesOnTransitively(a: Auth, b: Auth, c: Auth)
    requires GoesOn(a, b) && GoesOn(b, c)
    ensures GoesOn(a, c)
  {
    forall id | id in a.sessions ensures SessionGoesOn(a, c, id) {
      assert SessionGoesOn(a, b, id) && SessionGoesOn(b, c, id);
    }
    forall id | id in c.sessions && id !in a.sessions ensures c.sessions[id].family !in a.families {
      assert id in b.sessions ==> SessionGoesOn(b, c, id);
    }
  }

  lemma {:induction false} RunGoesOn(s: Auth, moves: seq<Move>)
    requires AuthOk(s)
    ensures GoesOn(s, DoAll(s, moves)) && AuthOk(DoAll(s, moves))
  {
    if |moves| > 0 {
      var front := moves[..|moves| - 1];
      RunGoesOn(s, front);
      MoveGoesOn(DoAll(s, front), moves[|moves| - 1]);
      MoveKeepsOk(DoAll(s, front), moves[|moves| - 1]);
      GoesOnTransitively(s, DoAll(s, front), DoAll(s, moves));
    }
  }

  // ----- rotation -----

  ghost predicate Reachable(s: Auth) {
    exists clock, active, moves :: s == DoAll(NewAuth(clock, active), moves)
  }

  lemma ReachableIsOk(s: Auth)
    requires Reachable(s)
    ensures AuthOk(s)
  {
    var clock, active, moves :| s == DoAll(NewAuth(clock, active), moves);
    MovesKeepOk(NewAuth(clock, active), moves);
  }

  /**
   * In any interleaving, and after any cleanup: no refresh token is accepted twice, and a token that
   * was accepted, still recorded as used or not, is no session's current one.
   */
  lemma RefreshTokensAreSingleUse(s: Auth, i: nat, j: nat, id: nat)
    requires Reachable(s)
    ensures i < j < |s.accepted| ==> s.accepted[i] != s.accepted[j]
    ensures id in s.sessions ==> s.sessions[id].refresh !in s.accepted && s.sessions[id].refresh !in s.used
    ensures forall k :: k in s.used ==> k in s.accepted
  {
    ReachableIsOk(s);
    assert id in s.sessions ==> RowOk(s, s.sessions[id]);
  }

  /** Two sessions never answer to the same bearer token. */
  lemma BearerIsUnique(s: Auth, access: Token, i: nat, j: nat)
    requires Reachable(s) && Authenticates(s, access, i) && Authenticates(s, access, j)
    ensures i == j
  {
    ReachableIsOk(s);
  }

  predicate FamilyDead(s: Auth, family: nat) {
    && family in s.families
    && forall id :: id in s.sessions && s.sessions[id].family == family ==> s.sessions[id].revokedAt.Some?
  }

  /** Dead families stay dead: none of their tokens ever authenticates or refreshes again. */
  lemma DeadFamilyStaysDead(s: Auth, family: nat, moves: seq<Move>, access: Token, id: nat, t: nat)
    requires AuthOk(s) && FamilyDead(s, family)
    ensures var b := DoAll(s, moves);
      && FamilyDead(b, family)
      && (id in b.sessions && b.sessions[id].family == family ==>
            !Authenticates(b, access, id) && !IsLocked(b, id) && !Enabled(b, LockRow(t, id)))
  {
    RunGoesOn(s, moves);
    var b := DoAll(s, moves);
    forall x | x in b.sessions && b.sessions[x].family == family ensures b.sessions[x].revokedAt.Some? {
      assert x in s.sessions ==> SessionGoesOn(s, b, x);
    }
    forall u | u in b.flights && b.flights[u].Locked? && b.flights[u].id == id && id in b.sessions
      ensures b.sessions[id].family != family
    {
      assert FlightOk(b, b.flights[u]);
    }
  }

  /** Presenting a token that is recorded as used kills its family, for good. */
  lemma ReuseKillsFamily(s: Auth, t: nat, token: Token, between: seq<Move>, moves: seq<Move>, access: Token,
      id: nat, u: nat)
    requires Reachable(s) && token in s.used && t !in s.flights
    requires var looked := DoAll(Do(s, LookUp(t, token)), between);
      t in looked.flights && looked.flights[t] == Reused(s.used[token].family) && Enabled(looked, KillFamily(t))
    ensures var killed := Do(DoAll(Do(s, LookUp(t, token)), between), KillFamily(t));
      var b := DoAll(killed, moves);
      && FamilyDead(b, s.used[token].family)
      && (id in b.sessions && b.sessions[id].family == s.used[token].family ==>
            !Authenticates(b, access, id) && !Enabled(b, LockRow(u, id)))
  {
    ReachableIsOk(s);
    var family := s.used[token].family;
    MoveKeepsOk(s, LookUp(t, token));
    var first := Do(s, LookUp(t, token));
    MovesKeepOk(first, between);
    var looked := DoAll(first, between);
    MoveKeepsOk(looked, KillFamily(t));
    assert FlightOk(looked, looked.flights[t]);
    DeadFamilyStaysDead(Do(looked, KillFamily(t)), family, moves, access, id, u);
  }

  // ----- revocation -----

  /** Logout, a changed password and every other revocation of a session are permanent. */
  lemma RevocationIsPermanent(s: Auth, id: nat, moves: seq<Move>, access: Token, t: nat)
    requires Reachable(s) && id in s.sessions && s.sessions[id].revokedAt.Some?
    ensures var b := DoAll(s, moves);
      && id in b.sessions && b.sessions[id] == s.sessions[id]
      && !Authenticates(b, access, id) && !Enabled(b, LockRow(t, id))
  {
    ReachableIsOk(s);
    RunGoesOn(s, moves);
    assert SessionGoesOn(s, DoAll(s, moves), id);
  }

  /**
   * No session of a revoked device ever authenticates, nor does a refresh pass its checks, not even one
   * that a sign-in under way at the revocation issues afterwards.
   */
  lemma RevokedDeviceStaysOut(s: Auth, seat: Seat, moves: seq<Move>, access: Token, id: nat, t: nat)
    requires Reachable(s) && Enabled(s, RevokeDevice(seat))
    ensures var b := DoAll(Do(s, RevokeDevice(seat)), moves);
      id in b.sessions && b.sessions[id].seat == seat ==> !Authenticates(b, access, id) && !Enabled(b, LockRow(t, id))
  {
    ReachableIsOk(s);
    MoveKeepsOk(s, RevokeDevice(seat));
    RunGoesOn(Do(s, RevokeDevice(seat)), moves);
    assert SeatRevoked(Do(s, RevokeDevice(seat)), seat);
  }

  // ----- lifetime -----

  /** A rotation is written at most `stall` after the deadline that was checked when the row was locked. */
  predicate OnTime(s: Auth, m: Move, stall: nat) {
    m.Rotate? && Enabled(s, m) ==> s.clock <= s.sessions[s.flights[m.t].id].refreshExpiresAt + stall
  }

  predicate AllOnTime(s: Auth, moves: seq<Move>, stall: nat) {
    |moves| > 0 ==>
      AllOnTime(s, moves[..|moves| - 1], stall) && OnTime(DoAll(s, moves[..|moves| - 1]), moves[|moves| - 1], stall)
  }

  function LastMoment(x: Session, stall: nat): Time {
    x.issuedAt + REFRESH_PERIOD + ACCESS_PERIOD + stall
  }

  predicate InTime(s: Auth, stall: nat) {
    forall id :: id in s.sessions ==> s.sessions[id].expiresAt <= LastMoment(s.sessions[id], stall)
  }

  /** A rotation keeps within the bound exactly when it is written within the stall after the deadline. */
  lemma RotationIsInTimeIff(s: Auth, t: nat, access: Token, refresh: Token, stall: nat)
    requires AuthOk(s) && Enabled(s, Rotate(t, access, refresh))
    ensures var y := Rotated(s, t, access, refresh).sessions[s.flights[t].id];
      y.expiresAt <= LastMoment(y, stall) <==> s.clock <= s.sessions[s.flights[t].id].refreshExpiresAt + stall
  {
    assert RowOk(s, s.sessions[s.flights[t].id]);
  }

  lemma MoveStaysInTime(s: Auth, m: Move, stall: nat)
    requires AuthOk(s) && InTime(s, stall) && OnTime(s, m, stall)
    ensures InTime(Do(s, m), stall)
  {
    if Enabled(s, m) && m.Rotate? {
      RotationIsInTimeIff(s, m.t, m.access, m.refresh, stall);
    }
  }

  lemma {:induction false} RunStaysInTime(s: Auth, moves: seq<Move>, stall: nat)
    requires AuthOk(s) && InTime(s, stall) && AllOnTime(s, moves, stall)
    ensures InTime(DoAll(s, moves), stall)
  {
    hide AuthOk, InTime, OnTime, Do;
    if |moves| > 0 {
      MovesKeepOk(s, moves[..|moves| - 1]);
      RunStaysInTime(s, moves[..|moves| - 1], stall);
      MoveStaysInTime(DoAll(s, moves[..|moves| - 1]), moves[|moves| - 1], stall);
    }
  }

  lemma {:induction false} SomeStallCoversAll(s: Auth, moves: seq<Move>)
    ensures exists stall: nat :: AllOnTime(s, moves, stall)
  {
    if |moves| > 0 {
      var front, last := moves[..|moves| - 1], moves[|moves| - 1];
      SomeStallCoversAll(s, front);
      var stall: nat :| AllOnTime(s, front, stall);
      var more := stall + DoAll(s, front).clock;
      LongerStall(s, front, stall, more);
      assert AllOnTime(s, moves, more);
    } else {
      assert AllOnTime(s, moves, 0);
    }
  }

  lemma {:induction false} LongerStall(s: Auth, moves: seq<Move>, stall: nat, more: nat)
    requires AllOnTime(s, moves, stall) && stall <= more
    ensures AllOnTime(s, moves, more)
  {
    if |moves| > 0 {
      LongerStall(s, moves[..|moves| - 1], stall, more);
    }
  }

  /**
   * However often it is refreshed, no session authenticates 30 days and 15 minutes after it was issued, or later
   * than that only by as much as the slowest refresh took to write past its deadline. Some such bound covers
   * every run.
   */
  lemma SessionsEnd(clock: Time, active: set<Uuid>, moves: seq<Move>, stall: nat, access: Token, id: nat)
    ensures exists d: nat :: AllOnTime(NewAuth(clock, active), moves, d)
    ensures AllOnTime(NewAuth(clock, active), moves, stall) ==>
      var s := DoAll(NewAuth(clock, active), moves);
      Authenticates(s, access, id) ==> s.clock < LastMoment(s.sessions[id], stall)
  {
    SomeStallCoversAll(NewAuth(clock, active), moves);
    if AllOnTime(NewAuth(clock, active), moves, stall) {
      RunStaysInTime(NewAuth(clock, active), moves, stall);
    }
  }

  /**
   * The deadline is checked before the write: a transaction that writes `late` after it issues tokens that
   * authenticate up to exactly `late` past the bound.
   */
  lemma LateRotationOutlives(s: Auth, t: nat, access: Token, refresh: Token, late: nat, wait: nat)
    requires AuthOk(s) && Enabled(s, Rotate(t, access, refresh))
    requires var x := s.sessions[s.flights[t].id];
      x.seat.user in s.active && !SeatRevoked(s, x.seat) && s.clock <= x.refreshExpiresAt
    ensures var x := s.sessions[s.flights[t].id];
      var written := Do(Do(s, Tick(x.refreshExpiresAt + late - s.clock)), Rotate(t, access, refresh));
      var b := Do(written, Tick(wait));
      Authenticates(b, access, s.flights[t].id) <==> b.clock < LastMoment(x, late)
  {
    assert FlightOk(s, s.flights[t]) && RowOk(s, s.sessions[s.flights[t].id]);
  }

  // ----- the transactions without overlap -----

  datatype TokenPair = TokenPair(id: nat, access: Token, refresh: Token, refreshExpiresAt: Time)

  predicate Presents(s: Auth, token: Token, id: nat) {
    id in s.sessions && s.sessions[id].refresh == token
  }

  /** No other transaction holds a row this refresh wants; if one does, the refresh waits until this is so. */
  predicate Granted(s: Auth, token: Token) {
    && (token in s.used ==> NoneLocked(s, OfFamily(s, s.used[token].family)))
    && (forall id :: id in s.sessions && Presents(s, token, id) ==> !IsLocked(s, id))
  }

  /** No session is lost or altered except by being revoked now, and none is revoked a second time. */
  predicate OnlyRevokes(s: Auth, b: Auth) {
    && b.sessions.Keys == s.sessions.Keys
    && forall id :: id in s.sessions && b.sessions[id] != s.sessions[id] ==>
         s.sessions[id].revokedAt == None && b.sessions[id] == s.sessions[id].(revokedAt := Some(s.clock))
  }

  class AuthStore {
    var db: Auth

    constructor (clock: Time, active: set<Uuid>)
      ensures db == NewAuth(clock, active) && AuthOk(db)
    {
      db := NewAuth(clock, active);
    }

    /** A call that is not interrupted is the steps of the overlapping model, one after the other. */
    method Refresh(ghost t: nat, token: Token, access: Token, refresh: Token) returns (r: Result<TokenPair>)
      requires AuthOk(db) && t !in db.flights && Granted(db, token) && FreshPair(db, access, refresh)
      modifies this
      ensures AuthOk(db)
      ensures token in old(db).used ==>
        r == Err(Unauthenticated) && db == DoAll(old(db), [LookUp(t, token), KillFamily(t)])
      ensures token !in old(db).used && (forall id :: !Presents(old(db), token, id)) ==>
        r == Err(Unauthenticated) && db == old(db)
      ensures forall id :: token !in old(db).used && Presents(old(db), token, id) ==>
        var x := old(db).sessions[id];
        if x.seat.user !in db.active || x.revokedAt.Some? then r == Err(Unauthenticated) && db == old(db)
        else if SeatRevoked(old(db), x.seat) then r == Err(DeviceRevoked) && db == old(db)
        else if x.refreshExpiresAt <= db.clock then r == Err(Unauthenticated) && db == old(db)
        else
          && r == Ok(TokenPair(id, access, refresh, x.refreshExpiresAt))
          && db == DoAll(old(db), [LookUp(t, token), LockRow(t, id), Rotate(t, access, refresh)])
    {
      hide AuthOk, DoAll, Do;
      var tx := db;
      if token in tx.used {
        var family := tx.used[token].family;
        db := tx.(sessions := Revoked(tx, OfFamily(tx, family)));
        KillIsItsSteps(tx, t, token);
        return Err(Unauthenticated);
      }
      if id :| id in tx.sessions && tx.sessions[id].refresh == token {
        var x := tx.sessions[id];
        assert Presents(tx, token, id);
        PresenterIsUnique(tx, token, id);
        if x.seat.user !in tx.active || x.revokedAt.Some? {
          return Err(Unauthenticated);
        }
        if x.seat in tx.devices && tx.devices[x.seat].Some? {
          return Err(DeviceRevoked);
        }
        if x.refreshExpiresAt <= tx.clock {
          return Err(Unauthenticated);
        }
        RotationIsItsSteps(tx, t, token, id, access, refresh);
        tx := tx.(used := tx.used[token := UsedToken(x.family, x.refreshExpiresAt)]);
        x := x.(access := access, refresh := refresh, rotatedAt := tx.clock, expiresAt := tx.clock + ACCESS_PERIOD);
        tx := tx.(sessions := tx.sessions[id := x]);
        tx := tx.(minted := tx.minted + {access, refresh}, accepted := tx.accepted + [token]);
        db := tx;
        return Ok(TokenPair(id, access, refresh, x.refreshExpiresAt));
      }
      return Err(Unauthenticated);
    }

    /** Bearer check: who the token stands for, or the first reason to refuse it. */
    method LookupAccess(access: Token) returns (r: Result<nat>)
      requires AuthOk(db)
      ensures r.Ok? ==> Authenticates(db, access, r.value)
      ensures r.Err? ==> forall id :: !Authenticates(db, access, id)
      ensures forall id :: id in db.sessions && db.sessions[id].access == access ==>
        var x := db.sessions[id];
        && (r == Err(DeviceRevoked) <==> x.seat.user in db.active && SeatRevoked(db, x.seat))
        && (r == Err(TokenExpired) <==>
              && x.seat.user in db.active && !SeatRevoked(db, x.seat)
              && x.revokedAt == None && x.expiresAt <= db.clock)
        && (r == Err(Unauthenticated) <==>
              x.seat.user !in db.active || (!SeatRevoked(db, x.seat) && x.revokedAt.Some?))
      ensures (forall id :: id in db.sessions ==> db.sessions[id].access != access) ==> r == Err(Unauthenticated)
    {
      if id :| id in db.sessions && db.sessions[id].access == access {
        var x := db.sessions[id];
        if x.seat.user !in db.active {
          return Err(Unauthenticated);
        }
        if x.seat in db.devices && db.devices[x.seat].Some? {
          return Err(DeviceRevoked);
        }
        if x.revokedAt.Some? {
          return Err(Unauthenticated);
        }
        if x.expiresAt <= db.clock {
          return Err(TokenExpired);
        }
        return Ok(id);
      }
      return Err(Unauthenticated);
    }

    /** Sign-in after the password check: a revoked device is turned away, a new one is registered. */
    method Login(ghost t: nat, seat: Seat, id: nat, family: nat, access: Token, refresh: Token)
      returns (r: Result<TokenPair>)
      requires AuthOk(db) && t !in db.logins && id !in db.sessions && family !in db.families
      requires FreshPair(db, access, refresh)
      modifies this
      ensures AuthOk(db)
      ensures r.Ok? <==> seat.user in db.active && !SeatRevoked(old(db), seat)
      ensures r.Err? ==> db == old(db)
      ensures r.Err? ==> r.error == (if seat.user !in db.active then Unauthenticated else DeviceRevoked)
      ensures r.Ok? ==> db == DoAll(old(db), [CheckLogin(t, seat), Issue(t, id, family, access, refresh)])
      ensures r.Ok? ==> r.value == TokenPair(id, access, refresh, db.clock + 30 * 24 * 60 * 60_000_000)
      ensures r.Ok? ==>
        && id in db.sessions && db.sessions[id].seat == seat && Authenticates(db, access, id)
        && forall x :: x in old(db).sessions ==> x in db.sessions && db.sessions[x] == old(db).sessions[x]
    {
      hide AuthOk, DoAll, Do;
      var tx := db;
      if seat.user !in tx.active {
        return Err(Unauthenticated);
      }
      if seat !in tx.devices {
        tx := tx.(devices := tx.devices[seat := None]);
      } else if tx.devices[seat].Some? {
        return Err(DeviceRevoked);
      }
      LoginIsItsSteps(db, t, seat, id, family, access, refresh);
      var now := tx.clock;
      var x := Session(seat, family, access, refresh, now, now, now + ACCESS_PERIOD, now + REFRESH_PERIOD, None);
      tx := tx.(sessions := tx.sessions[id := x]);
      tx := tx.(minted := tx.minted + {access, refresh}, families := tx.families + {family});
      db := tx;
      return Ok(TokenPair(id, access, refresh, x.refreshExpiresAt));
    }

    method Logout(id: nat)
      requires AuthOk(db) && !IsLocked(db, id)
      modifies this
      ensures AuthOk(db) && db == Do(old(db), Move.Logout(id))
      ensures db == old(db).(sessions := db.sessions) && OnlyRevokes(old(db), db)
      ensures forall x :: x in db.sessions ==>
        (db.sessions[x].revokedAt.Some? <==> x == id || old(db).sessions[x].revokedAt.Some?)
    {
      hide AuthOk, IsLocked;
      MoveKeepsOk(db, Move.Logout(id));
      db := db.(sessions := Revoked(db, {id}));
    }

    /** What ChangePassword and ResetPassword do to the user's sessions. */
    method RevokeUser(user: Uuid)
      requires AuthOk(db) && NoneLocked(db, OfUser(db, user))
      modifies this
      ensures AuthOk(db) && db == Do(old(db), Move.RevokeUser(user))
      ensures db == old(db).(sessions := db.sessions) && OnlyRevokes(old(db), db)
      ensures forall x :: x in db.sessions ==>
        (db.sessions[x].revokedAt.Some? <==> db.sessions[x].seat.user == user || old(db).sessions[x].revokedAt.Some?)
    {
      hide AuthOk, NoneLocked;
      MoveKeepsOk(db, Move.RevokeUser(user));
      db := db.(sessions := Revoked(db, OfUser(db, user)));
    }

    method RevokeDevice(seat: Seat) returns (r: Result<()>)
      requires AuthOk(db) && NoneLocked(db, OfSeat(db, seat))
      modifies this
      ensures AuthOk(db) && db == Do(old(db), Move.RevokeDevice(seat))
      ensures r.Ok? ==>
        && SeatRevoked(db, seat) && db == old(db).(sessions := db.sessions, devices := db.devices)
        && OnlyRevokes(old(db), db)
        && forall x :: x in db.sessions ==>
             (db.sessions[x].revokedAt.Some? <==> db.sessions[x].seat == seat || old(db).sessions[x].revokedAt.Some?)
      ensures r.Err? ==> db == old(db)
      ensures r == if seat in old(db).devices then Ok(()) else Err(NotFound)
    {
      hide AuthOk, IsLocked;
      MoveKeepsOk(db, Move.RevokeDevice(seat));
      var tx := db;
      if seat in tx.devices && tx.devices[seat].None? {
        tx := tx.(devices := tx.devices[seat := Some(tx.clock)]);
      } else if seat !in tx.devices {
        return Err(NotFound);
      }
      tx := tx.(sessions := Revoked(tx, OfSeat(tx, seat)));
      db := tx;
      return Ok(());
    }

    method CleanupUsed()
      requires AuthOk(db)
      modifies this
      ensures AuthOk(db) && db == Do(old(db), CleanUsed) && db == old(db).(used := db.used)
      ensures forall k :: k in db.used <==> k in old(db).used && db.clock < old(db).used[k].expiresAt
      ensures forall k :: k in db.used ==> db.used[k] == old(db).used[k]
    {
      MoveKeepsOk(db, CleanUsed);
      db := db.(used := map k | k in db.used && db.used[k].expiresAt > db.clock :: db.used[k]);
    }
  }

  lemma DoTwo(s: Auth, m: Move, n: Move)
    ensures DoAll(s, [m, n]) == Do(Do(s, m), n)
  {
    assert [m, n][..1] == [m] && [m][..0] == [];
    assert DoAll(s, [m]) == Do(s, m);
  }

  lemma DoThree(s: Auth, m: Move, n: Move, o: Move)
    ensures DoAll(s, [m, n, o]) == Do(Do(Do(s, m), n), o)
  {
    assert [m, n, o][..2] == [m, n];
    DoTwo(s, m, n);
  }

  lemma KillIsItsStep(s: Auth, t: nat, family: nat)
    requires t !in s.flights && NoneLocked(s, OfFamily(s, family))
    ensures Do(s.(flights := s.flights[t := Reused(family)]), KillFamily(t))
      == s.(sessions := Revoked(s, OfFamily(s, family)))
  {
    var h := s.(flights := s.flights[t := Reused(family)]);
    assert OfFamily(h, family) == OfFamily(s, family);
    forall id | id in OfFamily(h, family) ensures !IsLocked(h, id) {
      assert !IsLocked(s, id);
    }
    assert Revoked(h, OfFamily(h, family)) == Revoked(s, OfFamily(s, family));
    assert h.flights - {t} == s.flights;
  }

  lemma KillIsItsSteps(s: Auth, t: nat, token: Token)
    requires AuthOk(s) && t !in s.flights && token in s.used && NoneLocked(s, OfFamily(s, s.used[token].family))
    ensures var b := s.(sessions := Revoked(s, OfFamily(s, s.used[token].family)));
      AuthOk(b) && b == DoAll(s, [LookUp(t, token), KillFamily(t)])
  {
    hide AuthOk, DoAll, Revoked, NoneLocked;
    var family := s.used[token].family;
    RevokingKeepsOk(s, s.(sessions := Revoked(s, OfFamily(s, family))), OfFamily(s, family));
    DoTwo(s, LookUp(t, token), KillFamily(t));
    KillIsItsStep(s, t, family);
    assert Do(s, LookUp(t, token)) == s.(flights := s.flights[t := Reused(family)]);
  }

  function Holding(s: Auth, t: nat, token: Token, id: nat): Auth {
    s.(flights := s.flights[t := Locked(token, id)])
  }

  lemma LockIsItsSteps(s: Auth, t: nat, token: Token, id: nat)
    requires t !in s.flights && token !in s.used && Presents(s, token, id) && !IsLocked(s, id)
    requires MayRefresh(s, s.sessions[id])
    ensures Do(Do(s, LookUp(t, token)), LockRow(t, id)) == Holding(s, t, token, id)
  {
    var looked := Do(s, LookUp(t, token));
    assert looked == s.(flights := s.flights[t := Looked(token)]);
    assert !IsLocked(looked, id);
    assert looked.flights[t := Locked(token, id)] == s.flights[t := Locked(token, id)];
  }

  /** What a rotation leaves, table by table. */
  predicate IsRotation(s: Auth, b: Auth, token: Token, id: nat, access: Token, refresh: Token)
    requires id in s.sessions
  {
    var x := s.sessions[id];
    var y := x.(access := access, refresh := refresh, rotatedAt := s.clock, expiresAt := s.clock + ACCESS_PERIOD);
    b == s.(used := s.used[token := UsedToken(x.family, x.refreshExpiresAt)], sessions := s.sessions[id := y],
            minted := s.minted + {access, refresh}, accepted := s.accepted + [token])
  }

  lemma RotationIsItsSteps(s: Auth, t: nat, token: Token, id: nat, access: Token, refresh: Token)
    requires AuthOk(s) && t !in s.flights && token !in s.used && Presents(s, token, id) && !IsLocked(s, id)
    requires MayRefresh(s, s.sessions[id]) && FreshPair(s, access, refresh)
    ensures var b := DoAll(s, [LookUp(t, token), LockRow(t, id), Rotate(t, access, refresh)]);
      AuthOk(b) && IsRotation(s, b, token, id, access, refresh)
  {
    hide AuthOk, DoAll, MayRefresh, FreshPair, IsLocked;
    DoThree(s, LookUp(t, token), LockRow(t, id), Rotate(t, access, refresh));
    MovesKeepOk(s, [LookUp(t, token), LockRow(t, id), Rotate(t, access, refresh)]);
    LockIsItsSteps(s, t, token, id);
    RotateFromHolding(s, t, token, id, access, refresh);
  }

  lemma RotateFromHolding(s: Auth, t: nat, token: Token, id: nat, access: Token, refresh: Token)
    requires t !in s.flights && id in s.sessions && FreshPair(s, access, refresh)
    ensures IsRotation(s, Do(Holding(s, t, token, id), Rotate(t, access, refresh)), token, id, access, refresh)
  {
    var h := Holding(s, t, token, id);
    assert Enabled(h, Rotate(t, access, refresh));
    assert h.flights - {t} == s.flights;
  }

  lemma PresenterIsUnique(s: Auth, token: Token, id: nat)
    requires AuthOk(s) && Presents(s, token, id)
    ensures forall other :: Presents(s, token, other) ==> other == id
  {
  }

  function SignedIn(s: Auth, seat: Seat, id: nat, family: nat, access: Token, refresh: Token): Auth {
    s.(devices := if seat in s.devices then s.devices else s.devices[seat := None],
       sessions := s.sessions[id := NewSession(s, seat, family, access, refresh)],
       minted := s.minted + {access, refresh}, families := s.families + {family})
  }

  lemma IssueIsItsStep(s: Auth, t: nat, seat: Seat, id: nat, family: nat, access: Token, refresh: Token)
    requires t !in s.logins && id !in s.sessions && family !in s.families && FreshPair(s, access, refresh)
    ensures Do(s.(logins := s.logins[t := seat]), Issue(t, id, family, access, refresh))
      == SignedIn(s, seat, id, family, access, refresh)
  {
    var h := s.(logins := s.logins[t := seat]);
    assert h.logins - {t} == s.logins;
  }

  lemma LoginIsItsSteps(s: Auth, t: nat, seat: Seat, id: nat, family: nat, access: Token, refresh: Token)
    requires AuthOk(s) && t !in s.logins && Enabled(s, CheckLogin(t, seat))
    requires id !in s.sessions && family !in s.families && FreshPair(s, access, refresh)
    ensures var b := DoAll(s, [CheckLogin(t, seat), Issue(t, id, family, access, refresh)]);
      AuthOk(b) && b == SignedIn(s, seat, id, family, access, refresh)
  {
    hide AuthOk, DoAll, SignedIn, FreshPair;
    DoTwo(s, CheckLogin(t, seat), Issue(t, id, family, access, refresh));
    MovesKeepOk(s, [CheckLogin(t, seat), Issue(t, id, family, access, refresh)]);
    assert Do(s, CheckLogin(t, seat)) == s.(logins := s.logins[t := seat]);
    IssueIsItsStep(s, t, seat, id, family, access, refresh);
  }
}
