/** Refresh tokens and password-reset tokens of `AuthService`.  Hashes are injective, so a stored hash is
    modelled by the token itself; a signature that verifies is modelled by `Signed`; random ids and
    tokens are fresh.  Each handler is atomic. */
module SessionTokens {
  import opened Common

  type UserId = nat
  type Jti = nat
  type ResetToken = nat
  type Password = string

  /** The refresh JWT. */
  datatype Jwt = Jwt(jti: Jti, sub: UserId, exp: int)

  datatype RefreshRow = RefreshRow(userId: UserId, token: Jwt, expiresAt: int, revokedAt: Option<int>)

  datatype ResetRow = ResetRow(userId: UserId, expiresAt: int, usedAt: Option<int>)

  datatype Db = Db(passwords: map<UserId, Password>, refresh: map<Jti, RefreshRow>, resets: map<ResetToken, ResetRow>)

  /** The refresh cookie of a request. */
  datatype Cookie = Missing | Forged | Signed(jwt: Jwt)

  datatype Outcome<+T> = Success(value: T) | Unauthorized

  // ---------------------------------------------------------------- handlers as functions

  /** The `where` clause `refresh` and `getSession` share, after `verifyAsync`. */
  predicate Accepted(db: Db, cookie: Cookie, now: int) {
    && cookie.Signed? && now < cookie.jwt.exp
    && cookie.jwt.jti in db.refresh
    && (var row := db.refresh[cookie.jwt.jti];
        row.userId == cookie.jwt.sub && row.token == cookie.jwt && row.revokedAt.None? && now < row.expiresAt)
  }

  function Revoke(row: RefreshRow, now: int): RefreshRow {
    row.(revokedAt := Some(now))
  }

  function WithSession(db: Db, user: UserId, jti: Jti, exp: int): Db {
    db.(refresh := db.refresh[jti := RefreshRow(user, Jwt(jti, user, exp), exp, None)])
  }

  function Refreshed(db: Db, cookie: Cookie, csrfOk: bool, now: int, jti: Jti, exp: int): Db {
    if cookie.Missing? || !csrfOk || !Accepted(db, cookie, now) then db
    else
      var revoked := db.(refresh := db.refresh[cookie.jwt.jti := Revoke(db.refresh[cookie.jwt.jti], now)]);
      if cookie.jwt.sub in db.passwords then WithSession(revoked, cookie.jwt.sub, jti, exp) else revoked
  }

  function LoggedOut(db: Db, cookie: Cookie, csrfOk: bool, now: int): Db {
    if csrfOk && cookie.Signed? then
      db.(refresh := map j | j in db.refresh ::
            if db.refresh[j].token == cookie.jwt then Revoke(db.refresh[j], now) else db.refresh[j])
    else db
  }

  function UseAll(resets: map<ResetToken, ResetRow>, user: UserId, now: int): map<ResetToken, ResetRow> {
    map t | t in resets ::
      if resets[t].userId == user && resets[t].usedAt.None? then resets[t].(usedAt := Some(now)) else resets[t]
  }

  function WithResetToken(db: Db, user: UserId, token: ResetToken, now: int, expiresAt: int): Db {
    db.(resets := UseAll(db.resets, user, now)[token := ResetRow(user, expiresAt, None)])
  }

  predicate Usable(db: Db, token: ResetToken, now: int) {
    token in db.resets && db.resets[token].usedAt.None? && now < db.resets[token].expiresAt
  }

  function RevokeAll(refresh: map<Jti, RefreshRow>, user: UserId, now: int): map<Jti, RefreshRow> {
    map j | j in refresh ::
      if refresh[j].userId == user && refresh[j].revokedAt.None? then Revoke(refresh[j], now) else refresh[j]
  }

  function PasswordReset(db: Db, token: ResetToken, password: Password, now: int): Db {
    if !Usable(db, token, now) then db
    else
      var user := db.resets[token].userId;
      Db(if user in db.passwords then db.passwords[user := password] else db.passwords,
         RevokeAll(db.refresh, user, now),
         db.resets[token := db.resets[token].(usedAt := Some(now))])
  }

  // ---------------------------------------------------------------- the service

  class AuthService {
    var passwords: map<UserId, Password>
    var refreshTokens: map<Jti, RefreshRow>
    var passwordResetTokens: map<ResetToken, ResetRow>

    function View(): Db
      reads this
    {
      Db(passwords, refreshTokens, passwordResetTokens)
    }

    constructor (passwords: map<UserId, Password>)
      ensures View() == Db(passwords, map[], map[])
    {
      this.passwords := passwords;
      refreshTokens, passwordResetTokens := map[], map[];
    }

    method IssueSession(user: UserId, jti: Jti, exp: int) returns (token: Jwt)
      requires jti !in refreshTokens
      modifies this
      ensures View() == WithSession(old(View()), user, jti, exp)
      ensures token == Jwt(jti, user, exp)
    {
      token := Jwt(jti, user, exp);
      refreshTokens := refreshTokens[jti := RefreshRow(user, token, exp, None)];
    }

    method Refresh(cookie: Cookie, csrfOk: bool, now: int, jti: Jti, exp: int) returns (r: Outcome<Jwt>)
      requires jti !in refreshTokens
      modifies this
      ensures View() == Refreshed(old(View()), cookie, csrfOk, now, jti, exp)
      ensures r.Success? <==> csrfOk && Accepted(old(View()), cookie, now) && cookie.jwt.sub in passwords
      ensures r.Success? ==> r.value == Jwt(jti, cookie.jwt.sub, exp)
    {
      if cookie.Missing? {
        return Unauthorized;
      }
      if !csrfOk {
        return Unauthorized;
      }
      if !cookie.Signed? || cookie.jwt.exp <= now || cookie.jwt.jti !in refreshTokens {
        return Unauthorized;
      }
      var stored := refreshTokens[cookie.jwt.jti];
      if stored.userId != cookie.jwt.sub || stored.token != cookie.jwt || stored.revokedAt.Some?
        || stored.expiresAt <= now {
        return Unauthorized;
      }
      refreshTokens := refreshTokens[cookie.jwt.jti := stored.(revokedAt := Some(now))];
      if cookie.jwt.sub !in passwords {
        return Unauthorized;
      }
      var token := IssueSession(cookie.jwt.sub, jti, exp);
      r := Success(token);
    }

    method GetSession(cookie: Cookie, now: int) returns (r: Outcome<UserId>)
      ensures r == if Accepted(View(), cookie, now) && cookie.jwt.sub in passwords then Success(cookie.jwt.sub)
                else Unauthorized
    {
      if !cookie.Signed? || cookie.jwt.exp <= now || cookie.jwt.jti !in refreshTokens {
        return Unauthorized;
      }
      var stored := refreshTokens[cookie.jwt.jti];
      if stored.userId != cookie.jwt.sub || stored.token != cookie.jwt || stored.revokedAt.Some?
        || stored.expiresAt <= now {
        return Unauthorized;
      }
      r := if cookie.jwt.sub in passwords then Success(cookie.jwt.sub) else Unauthorized;
    }

    method Logout(cookie: Cookie, csrfOk: bool, now: int)
      modifies this
      ensures View() == LoggedOut(old(View()), cookie, csrfOk, now)
    {
      if csrfOk && cookie.Signed? {
        refreshTokens := map j | j in refreshTokens ::
          if refreshTokens[j].token == cookie.jwt then Revoke(refreshTokens[j], now) else refreshTokens[j];
      }
    }

    method CreatePasswordResetToken(user: UserId, token: ResetToken, now: int, expiresAt: int)
      requires token !in passwordResetTokens
      modifies this
      ensures View() == WithResetToken(old(View()), user, token, now, expiresAt)
    {
      passwordResetTokens := UseAll(passwordResetTokens, user, now);
      passwordResetTokens := passwordResetTokens[token := ResetRow(user, expiresAt, None)];
    }

    method ResetPassword(token: ResetToken, password: Password, now: int) returns (r: Outcome<UserId>)
      modifies this
      ensures View() == PasswordReset(old(View()), token, password, now)
      ensures r == if Usable(old(View()), token, now) then Success(old(passwordResetTokens)[token].userId)
                else Unauthorized
    {
      if token !in passwordResetTokens || passwordResetTokens[token].usedAt.Some?
        || passwordResetTokens[token].expiresAt <= now {
        return Unauthorized;
      }
      var user := passwordResetTokens[token].userId;
      if user in passwords {
        passwords := passwords[user := password];
      }
      passwordResetTokens := passwordResetTokens[token := passwordResetTokens[token].(usedAt := Some(now))];
      refreshTokens := RevokeAll(refreshTokens, user, now);
      r := Success(user);
    }
  }

  // ---------------------------------------------------------------- runs

  datatype Event =
    | Login(user: UserId, jti: Jti, exp: int)
    | Refresh(cookie: Cookie, csrfOk: bool, now: int, jti: Jti, exp: int)
    | Logout(cookie: Cookie, csrfOk: bool, now: int)
    | RequestReset(user: UserId, token: ResetToken, now: int, expiresAt: int)
    | ResetPassword(token: ResetToken, password: Password, now: int)

  /** Random ids and tokens have not been issued before. */
  predicate Fresh(db: Db, e: Event) {
    && (e.Login? || e.Refresh? ==> e.jti !in db.refresh)
    && (e.RequestReset? ==> e.token !in db.resets)
  }

  function Apply(db: Db, e: Event): Db {
    match e
    case Login(user, jti, exp) => WithSession(db, user, jti, exp)
    case Refresh(cookie, csrfOk, now, jti, exp) => Refreshed(db, cookie, csrfOk, now, jti, exp)
    case Logout(cookie, csrfOk, now) => LoggedOut(db, cookie, csrfOk, now)
    case RequestReset(user, token, now, expiresAt) => WithResetToken(db, user, token, now, expiresAt)
    case ResetPassword(token, password, now) => PasswordReset(db, token, password, now)
  }

  predicate Legal(db: Db, run: seq<Event>)
    decreases |run|
  {
    run == [] || (Fresh(db, run[0]) && Legal(Apply(db, run[0]), run[1..]))
  }

  function After(db: Db, run: seq<Event>): Db
    decreases |run|
  {
    if run == [] then db else After(Apply(db, run[0]), run[1..])
  }

  /** Each row's id is the id inside its token, and at most one reset token per user is unused. */
  predicate Sound(db: Db) {
    && (forall j | j in db.refresh :: db.refresh[j].token.jti == j && db.refresh[j].token.sub == db.refresh[j].userId)
    && (forall t, u | t in db.resets && u in db.resets && db.resets[t].userId == db.resets[u].userId
                      && db.resets[t].usedAt.None? && db.resets[u].usedAt.None? :: t == u)
  }

  lemma ApplyKeepsSound(db: Db, e: Event)
    requires Sound(db) && Fresh(db, e)
    ensures Sound(Apply(db, e))
  {
  }

  lemma {:induction false} RunKeepsSound(db: Db, run: seq<Event>)
    requires Sound(db) && Legal(db, run)
    ensures Sound(After(db, run))
    decreases |run|
  {
    if run != [] {
      ApplyKeepsSound(db, run[0]);
      RunKeepsSound(Apply(db, run[0]), run[1..]);
    }
  }

  // ---------------------------------------------------------------- refresh tokens

  function LiveTokens(db: Db, user: UserId): set<Jti> {
    set j | j in db.refresh && db.refresh[j].userId == user && db.refresh[j].revokedAt.None?
  }

  /** Rotation: an accepted refresh trades exactly the presented token for the new one; a refused one
      changes no token. */
  lemma RefreshTradesOneToken(db: Db, e: Event, user: UserId)
    requires e.Refresh? && Sound(db) && Fresh(db, e)
    ensures var accepted := e.csrfOk && Accepted(db, e.cookie, e.now) && e.cookie.jwt.sub in db.passwords;
            accepted ==>
              && LiveTokens(Apply(db, e), e.cookie.jwt.sub) ==
                 LiveTokens(db, e.cookie.jwt.sub) - {e.cookie.jwt.jti} + {e.jti}
              && e.cookie.jwt.jti in LiveTokens(db, e.cookie.jwt.sub)
              && (user != e.cookie.jwt.sub ==> LiveTokens(Apply(db, e), user) == LiveTokens(db, user))
    ensures !(e.csrfOk && Accepted(db, e.cookie, e.now)) ==> Apply(db, e) == db
  {
  }

  /** A token that has been revoked stays so, and neither `refresh` nor `getSession` ever accepts it
      again, whatever happens later. */
  lemma {:induction false} RevokedForGood(db: Db, run: seq<Event>, cookie: Cookie, now: int)
    requires Legal(db, run) && cookie.Signed?
    requires cookie.jwt.jti in db.refresh && db.refresh[cookie.jwt.jti].revokedAt.Some?
    ensures !Accepted(After(db, run), cookie, now)
    decreases |run|
  {
    if run != [] {
      RevokedForGood(Apply(db, run[0]), run[1..], cookie, now);
    }
  }

  /** Replay: once a token has been refreshed, presenting it again is refused for ever. */
  lemma RefreshedTokenIsDead(db: Db, e: Event, run: seq<Event>, now: int)
    requires e.Refresh? && Fresh(db, e) && Legal(Apply(db, e), run)
    requires e.csrfOk && Accepted(db, e.cookie, e.now)
    ensures !Accepted(After(Apply(db, e), run), e.cookie, now)
  {
    RevokedForGood(Apply(db, e), run, e.cookie, now);
  }

  predicate ResetsUser(db: Db, e: Event, user: UserId) {
    e.ResetPassword? && Usable(db, e.token, e.now) && db.resets[e.token].userId == user
  }

  /** Logins of `user` in the run since the last password reset of `user`, on top of `sofar`. */
  function LoginsSinceReset(db: Db, run: seq<Event>, user: UserId, sofar: nat): nat
    decreases |run|
  {
    if run == [] then sofar
    else
      var n := if ResetsUser(db, run[0], user) then 0
               else if run[0].Login? && run[0].user == user then sofar + 1 else sofar;
      LoginsSinceReset(Apply(db, run[0]), run[1..], user, n)
  }

  lemma LiveAfterLogin(db: Db, e: Event, user: UserId)
    requires e.Login? && Fresh(db, e)
    ensures LiveTokens(Apply(db, e), user) == if e.user == user then LiveTokens(db, user) + {e.jti}
              else LiveTokens(db, user)
    ensures e.jti !in LiveTokens(db, user)
  {
  }

  lemma LiveAfterOthers(db: Db, e: Event, user: UserId)
    requires !e.Login? && !e.Refresh?
    ensures LiveTokens(Apply(db, e), user) <= LiveTokens(db, user)
    ensures ResetsUser(db, e, user) ==> LiveTokens(Apply(db, e), user) == {}
  {
  }

  lemma LiveAfterRefresh(db: Db, e: Event, user: UserId)
    requires e.Refresh? && Sound(db) && Fresh(db, e)
    ensures |LiveTokens(Apply(db, e), user)| <= |LiveTokens(db, user)|
  {
    RefreshTradesOneToken(db, e, user);
    if e.csrfOk && Accepted(db, e.cookie, e.now) {
      if e.cookie.jwt.sub !in db.passwords {
        SubsetSize(LiveTokens(Apply(db, e), user), LiveTokens(db, user));
      } else if e.cookie.jwt.sub == user {
        Traded(LiveTokens(db, user), e.cookie.jwt.jti, e.jti);
      }
    }
  }

  lemma Traded(a: set<Jti>, spent: Jti, issued: Jti)
    requires spent in a
    ensures |a - {spent} + {issued}| <= |a|
  {
  }

  lemma LiveAfterEvent(db: Db, e: Event, user: UserId)
    requires Sound(db) && Fresh(db, e)
    ensures ResetsUser(db, e, user) ==> LiveTokens(Apply(db, e), user) == {}
    ensures e.Login? && e.user == user ==> |LiveTokens(Apply(db, e), user)| == |LiveTokens(db, user)| + 1
    ensures !(e.Login? && e.user == user) ==> |LiveTokens(Apply(db, e), user)| <= |LiveTokens(db, user)|
  {
    if e.Login? {
      LiveAfterLogin(db, e, user);
    } else if e.Refresh? {
      LiveAfterRefresh(db, e, user);
    } else {
      LiveAfterOthers(db, e, user);
      SubsetSize(LiveTokens(Apply(db, e), user), LiveTokens(db, user));
    }
  }

  /** Conservation: refreshing never multiplies sessions.  A user never has more live refresh tokens than
      logins since the last password reset, over every run. */
  lemma {:induction false} NoMoreTokensThanLogins(db: Db, run: seq<Event>, user: UserId, sofar: nat)
    requires Sound(db) && Legal(db, run) && |LiveTokens(db, user)| <= sofar
    ensures |LiveTokens(After(db, run), user)| <= LoginsSinceReset(db, run, user, sofar)
    decreases |run|
  {
    if run != [] {
      ApplyKeepsSound(db, run[0]);
      LiveAfterEvent(db, run[0], user);
      var n := if ResetsUser(db, run[0], user) then 0
               else if run[0].Login? && run[0].user == user then sofar + 1 else sofar;
      NoMoreTokensThanLogins(Apply(db, run[0]), run[1..], user, n);
    }
  }

  // ---------------------------------------------------------------- reset tokens

  lemma {:induction false} UsedForGood(db: Db, run: seq<Event>, token: ResetToken, now: int)
    requires Legal(db, run) && token in db.resets && db.resets[token].usedAt.Some?
    ensures !Usable(After(db, run), token, now)
    decreases |run|
  {
    if run != [] {
      UsedForGood(Apply(db, run[0]), run[1..], token, now);
    }
  }

  /** A reset token changes the password at most once: it works only while unused, sets the password of
      its user alone, signs that user out everywhere, and is refused for ever after. */
  lemma ResetTokenWorksOnce(db: Db, e: Event, run: seq<Event>, later: int, user: UserId)
    requires e.ResetPassword? && Fresh(db, e) && Legal(Apply(db, e), run)
    requires Usable(db, e.token, e.now) && user in db.passwords
    ensures !Usable(After(Apply(db, e), run), e.token, later)
    ensures Apply(db, e).passwords[user] == if user == db.resets[e.token].userId then e.password else db.passwords[user]
    ensures LiveTokens(Apply(db, e), db.resets[e.token].userId) == {}
  {
    UsedForGood(Apply(db, e), run, e.token, later);
  }

  /** Requesting a new link kills the earlier ones: along every run a user has at most one usable reset
      token. */
  lemma OneUsableResetToken(run: seq<Event>, passwords: map<UserId, Password>, t: ResetToken, u: ResetToken, now: int)
    requires Legal(Db(passwords, map[], map[]), run)
    ensures var db := After(Db(passwords, map[], map[]), run);
            Usable(db, t, now) && Usable(db, u, now) && db.resets[t].userId == db.resets[u].userId ==> t == u
  {
    RunKeepsSound(Db(passwords, map[], map[]), run);
  }

  // ---------------------------------------------------------------- what each handler does to the others

  /** A new session is accepted exactly until its token expires, and no other cookie is treated differently. */
  lemma LoginOpensOneSession(db: Db, e: Event, other: Cookie, now: int)
    requires e.Login? && Fresh(db, e)
    ensures Accepted(Apply(db, e), Signed(Jwt(e.jti, e.user, e.exp)), now) <==> now < e.exp
    ensures !(other.Signed? && other.jwt.jti == e.jti) ==>
              (Accepted(Apply(db, e), other, now) <==> Accepted(db, other, now))
    ensures Apply(db, e).passwords == db.passwords && Apply(db, e).resets == db.resets
  {
  }

  /** An accepted refresh opens the new session in the same way, closes the presented one and leaves the rest. */
  lemma RefreshMovesOneSession(db: Db, e: Event, other: Cookie, now: int)
    requires e.Refresh? && Fresh(db, e)
    requires e.csrfOk && Accepted(db, e.cookie, e.now) && e.cookie.jwt.sub in db.passwords
    ensures Accepted(Apply(db, e), Signed(Jwt(e.jti, e.cookie.jwt.sub, e.exp)), now) <==> now < e.exp
    ensures !Accepted(Apply(db, e), e.cookie, now)
    ensures !(other.Signed? && other.jwt.jti in {e.jti, e.cookie.jwt.jti}) ==>
              (Accepted(Apply(db, e), other, now) <==> Accepted(db, other, now))
  {
  }

  /** Logging out ends the presented session for good and no other; without the CSRF token it does nothing. */
  lemma LogoutEndsOneSession(db: Db, e: Event, run: seq<Event>, at: int, other: Cookie, later: int)
    requires Sound(db) && e.Logout? && Legal(Apply(db, e), run)
    requires Accepted(db, e.cookie, at)
    ensures e.csrfOk ==> !Accepted(After(Apply(db, e), run), e.cookie, later)
    ensures other != e.cookie ==> (Accepted(Apply(db, e), other, later) <==> Accepted(db, other, later))
    ensures !e.csrfOk ==> Apply(db, e) == db
    ensures Apply(db, e).passwords == db.passwords && Apply(db, e).resets == db.resets
  {
    if e.csrfOk {
      RevokedForGood(Apply(db, e), run, e.cookie, later);
    }
  }

  /** A requested link works exactly until it expires; earlier links of the same user stop working and those of
      others are not touched. */
  lemma RequestedLinkWorks(db: Db, e: Event, other: ResetToken, now: int)
    requires e.RequestReset? && Fresh(db, e)
    ensures Usable(Apply(db, e), e.token, now) <==> now < e.expiresAt
    ensures other != e.token && other in db.resets ==>
              (Usable(Apply(db, e), other, now) <==> Usable(db, other, now) && db.resets[other].userId != e.user)
    ensures Apply(db, e).passwords == db.passwords && Apply(db, e).refresh == db.refresh
  {
  }

  /** A password reset that works signs out its user alone and spends its link alone; one that does not work changes
      nothing. */
  lemma ResetTouchesOneUser(db: Db, e: Event, cookie: Cookie, other: ResetToken, now: int)
    requires Sound(db) && e.ResetPassword?
    ensures !Usable(db, e.token, e.now) ==> Apply(db, e) == db
    ensures Usable(db, e.token, e.now) ==>
              && (Accepted(Apply(db, e), cookie, now) <==>
                    Accepted(db, cookie, now) && cookie.jwt.sub != db.resets[e.token].userId)
              && (other != e.token ==> (Usable(Apply(db, e), other, now) <==> Usable(db, other, now)))
              && Apply(db, e).passwords.Keys == db.passwords.Keys
  {
  }

  /** A row keeps all but its date of revocation or use, and that is written by an event of that date or not at all. */
  lemma DatesAreThoseOfEvents(db: Db, e: Event, j: Jti, t: ResetToken)
    requires Fresh(db, e)
    ensures j in db.refresh ==>
              && j in Apply(db, e).refresh
              && var (was, now') := (db.refresh[j], Apply(db, e).refresh[j]);
                 && now'.userId == was.userId && now'.token == was.token && now'.expiresAt == was.expiresAt
                 && (now'.revokedAt == was.revokedAt || (!e.Login? && now'.revokedAt == Some(e.now)))
    ensures t in db.resets ==>
              && t in Apply(db, e).resets
              && var (was, now') := (db.resets[t], Apply(db, e).resets[t]);
                 && now'.userId == was.userId && now'.expiresAt == was.expiresAt
                 && (now'.usedAt == was.usedAt || (was.usedAt.None? && !e.Login? && now'.usedAt == Some(e.now)))
  {
  }
}
