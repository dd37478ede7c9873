/**
 * Login and access-token refresh (src/controller/auth.controller.ts).
 * Login may insert a session; refresh only reads.
 */
module AuthController {
  import opened Wrappers
  import opened Bson
  import opened UserModel
  import opened Store
  import opened Jwt
  import opened Http
  import opened AuthService

  const InvalidCredentials := "Invalid email or password"
  const PleaseVerify := "Please verify your email"
  const CouldNotRefresh := "Could not refresh access token"

  /** `createSessionHandler`: find by email, require `verified`, then check the password, then issue both tokens. */
  function Login(keys: KeyStore, db: Db, email: string, password: string, now: nat): (o: Outcome)
    requires db.Valid()
    ensures o.db.Valid() && o.mail == []
  {
    match db.FindUserByEmail(email)
    case None => Outcome(db, Send(InvalidCredentials), [])
    case Some(id) =>
      var user := db.users[id];
      if !user.verified then Outcome(db, Send(PleaseVerify), [])
      else if !ValidatePassword(user, password) then Outcome(db, Send(InvalidCredentials), [])
      else
        var accessToken := SignAccessToken(keys, id, user, now);
        var (db', refreshToken) := IssueRefreshToken(keys, db, id, now);
        Outcome(db', Response(200, Tokens(accessToken, refreshToken)), [])
  }

  method CreateSessionHandler(db: Database, keys: KeyStore, email: string, password: string, now: nat)
    returns (res: Response)
    requires db.Valid()
    modifies db
    ensures db.Valid()
    ensures Login(keys, old(db.State()), email, password, now) == Outcome(db.State(), res, [])
  {
    var found := db.FindUserByEmail(email);
    if found.None? {
      return Send(InvalidCredentials);
    }
    var id := found.value;
    var user := db.users[id];
    if !user.verified {
      return Send(PleaseVerify);
    }
    var isValid := ValidatePassword(user, password);
    if !isValid {
      return Send(InvalidCredentials);
    }
    var accessToken := SignAccessToken(keys, id, user, now);
    var refreshToken := SignRefreshToken(db, keys, id, now);
    res := Response(200, Tokens(accessToken, refreshToken));
  }

  /** `decoded.session`: the value under "session" when it is an id; otherwise the lookup finds nothing. */
  function SessionIdOf(payload: Object): Option<ObjectId> {
    if "session" in payload && payload["session"].Oid? then Some(payload["session"].id) else None
  }

  /**
   * `refreshAccessTokenHandler`: verify the token from the `x-refresh` header
   * (an absent header verifies like an empty one), find its session, require
   * it valid, find its user, and sign a new access token.
   */
  function Refresh(keys: KeyStore, db: Db, xRefresh: Option<string>, now: nat): (res: Response)
    ensures res.Response? && (res.status == 200 || res.status == 401)
    ensures res.status == 200 <==>
      var s := RefreshSession(keys, db, xRefresh, now);
      s.Some? && s.value in db.sessions && db.sessions[s.value].valid && db.sessions[s.value].user in db.users
    ensures res.status == 200 ==>
      var s := RefreshSession(keys, db, xRefresh, now).value;
      var uid := db.sessions[s].user;
      res.body == AccessToken(SignAccessToken(keys, uid, db.users[uid], now))
  {
    match VerifyJwt(keys, xRefresh.GetOr(""), RefreshTokenPublicKey, now)
    case None => Response(401, Text(CouldNotRefresh))
    case Some(decoded) =>
      var session := if SessionIdOf(decoded.payload).Some?
                     then db.FindSessionById(SessionIdOf(decoded.payload).value) else None;
      if session.None? || !session.value.valid then Response(401, Text(CouldNotRefresh))
      else match db.FindUserById(session.value.user)
        case None => Response(401, Text(CouldNotRefresh))
        case Some(user) => Response(200, AccessToken(SignAccessToken(keys, session.value.user, user, now)))
  }

  /** The session a refresh header names, when its token verifies. */
  function RefreshSession(keys: KeyStore, db: Db, xRefresh: Option<string>, now: nat): Option<ObjectId> {
    match VerifyJwt(keys, xRefresh.GetOr(""), RefreshTokenPublicKey, now)
    case None => None
    case Some(decoded) => SessionIdOf(decoded.payload)
  }

  method RefreshAccessTokenHandler(db: Database, keys: KeyStore, xRefresh: Option<string>, now: nat)
    returns (res: Response)
    ensures res == Refresh(keys, db.State(), xRefresh, now)
  {
    var refreshToken := xRefresh.GetOr("");
    var decoded := VerifyJwt(keys, refreshToken, RefreshTokenPublicKey, now);
    if decoded.None? {
      return Response(401, Text(CouldNotRefresh));
    }
    var sessionId := SessionIdOf(decoded.value.payload);
    var session := if sessionId.Some? then db.FindSessionById(sessionId.value) else None;
    if session.None? || !session.value.valid {
      return Response(401, Text(CouldNotRefresh));
    }
    var user := db.FindUserById(session.value.user);
    if user.None? {
      return Response(401, Text(CouldNotRefresh));
    }
    var accessToken := SignAccessToken(keys, session.value.user, user.value, now);
    res := Response(200, AccessToken(accessToken));
  }
}

/** What login and refresh promise, stated over their functions. */
module AuthControllerProperties {
  import opened Wrappers
  import opened Bson
  import opened UserModel
  import opened SessionModel
  import opened Store
  import opened Jwt
  import opened Http
  import opened AuthService
  import opened AuthController

  /**
   * Login issues tokens exactly for a known, verified user whose password
   * validates. Unknown email and wrong password get the same message; an
   * unverified user is told to verify whatever password was sent. Only a
   * successful login changes the database.
   */
  lemma LoginDecision(keys: KeyStore, db: Db, email: string, password: string, now: nat)
    requires db.Valid()
    ensures var o := Login(keys, db, email, password, now);
      var found := db.FindUserByEmail(email);
      && (o.response.Response? && o.response.body.Tokens? <==>
            found.Some? && db.users[found.value].verified && ValidatePassword(db.users[found.value], password))
      && (found.None? ==> o == Outcome(db, Send(InvalidCredentials), []))
      && (found.Some? && !db.users[found.value].verified ==> o == Outcome(db, Send(PleaseVerify), []))
      && (found.Some? && db.users[found.value].verified && !ValidatePassword(db.users[found.value], password) ==>
            o == Outcome(db, Send(InvalidCredentials), []))
  {
  }

  /**
   * A successful login adds exactly one session, valid and belonging to the
   * user, leaves the users alone, and returns an access token for that user
   * and a refresh token naming the new session.
   */
  lemma LoginCreatesOneSession(keys: KeyStore, db: Db, email: string, password: string, now: nat)
    requires db.Valid()
    requires Login(keys, db, email, password, now).response.Response?
    requires Login(keys, db, email, password, now).response.body.Tokens?
    ensures var o := Login(keys, db, email, password, now);
      var id := db.FindUserByEmail(email).value;
      && o.db.users == db.users
      && |o.db.sessions| == |db.sessions| + 1
      && exists s | s !in db.sessions ::
           && o.db.sessions == db.sessions[s := Session(id, true)]
           && o.response.body == Tokens(SignAccessToken(keys, id, db.users[id], now), RefreshToken(keys, s, now))
  {
    var id := db.FindUserByEmail(email).value;
    var (db', _) := IssueRefreshToken(keys, db, id, now);
    var s :| s !in db.sessions && db'.sessions == db.sessions[s := Session(id, true)]
             && Login(keys, db, email, password, now).response.body.refreshToken == RefreshToken(keys, s, now);
    assert db'.sessions.Keys == db.sessions.Keys + {s};
  }

  /** The refresh handler reads back, from a refresh token's payload, the session id it was signed with. */
  lemma SessionIdOfRefreshPayload(s: ObjectId)
    ensures SessionIdOf(RefreshPayload(s)) == Some(s)
  {
    assert "session" in RefreshPayload(s);
  }

  /** Refresh answers 401 when the token does not verify, names no session, or names a missing or invalid session, or one whose user is gone. */
  lemma RefreshRejections(keys: KeyStore, db: Db, xRefresh: Option<string>, now: nat)
    ensures VerifyJwt(keys, xRefresh.GetOr(""), RefreshTokenPublicKey, now).None? ==>
      Refresh(keys, db, xRefresh, now) == Response(401, Text(CouldNotRefresh))
    ensures var s := RefreshSession(keys, db, xRefresh, now);
      s.None? || s.value !in db.sessions || !db.sessions[s.value].valid || db.sessions[s.value].user !in db.users ==>
      Refresh(keys, db, xRefresh, now) == Response(401, Text(CouldNotRefresh))
  {
  }

  /** A refresh token for a stored, valid session whose user exists, presented within a year, yields an access token for that user. */
  lemma RefreshAccepts(keys: KeyStore, db: Db, s: ObjectId, now: nat, later: nat)
    requires Sound(keys)
    requires s in db.sessions && db.sessions[s].valid && db.sessions[s].user in db.users
    requires later < now + 31557600
    ensures var uid := db.sessions[s].user;
      Refresh(keys, db, Some(RefreshToken(keys, s, now)), later)
        == Response(200, AccessToken(SignAccessToken(keys, uid, db.users[uid], later)))
  {
    RefreshTokenVerifies(keys, s, now, later);
  }

  /**
   * End to end: the refresh token returned by a successful login, presented
   * within a year in the `x-refresh` header, yields a new access token for the
   * same user and nothing else.
   */
  lemma LoginThenRefresh(keys: KeyStore, db: Db, email: string, password: string, now: nat, later: nat)
    requires Sound(keys) && db.Valid()
    requires Login(keys, db, email, password, now).response.Response?
    requires Login(keys, db, email, password, now).response.body.Tokens?
    requires later < now + 31557600
    ensures var o := Login(keys, db, email, password, now);
      var id := db.FindUserByEmail(email).value;
      Refresh(keys, o.db, Some(o.response.body.refreshToken), later)
        == Response(200, AccessToken(SignAccessToken(keys, id, db.users[id], later)))
  {
    LoginCreatesOneSession(keys, db, email, password, now);
    var o := Login(keys, db, email, password, now);
    var id := db.FindUserByEmail(email).value;
    var s :| s !in db.sessions && o.db.sessions == db.sessions[s := Session(id, true)]
             && o.response.body == Tokens(SignAccessToken(keys, id, db.users[id], now), RefreshToken(keys, s, now));
    assert o.db.sessions[s] == Session(id, true) && o.db.users == db.users;
    RefreshAccepts(keys, o.db, s, now, later);
  }

  /** The access token from a successful login decodes, for fifteen minutes, to the access payload, which holds no private field. */
  lemma LoginAccessToken(keys: KeyStore, db: Db, email: string, password: string, now: nat, later: nat)
    requires Sound(keys) && db.Valid()
    requires Login(keys, db, email, password, now).response.Response?
    requires Login(keys, db, email, password, now).response.body.Tokens?
    requires later < now + 900
    ensures var o := Login(keys, db, email, password, now);
      var id := db.FindUserByEmail(email).value;
      var claims := VerifyJwt(keys, o.response.body.accessToken, AccessTokenPublicKey, later);
      && claims == Some(Claims(AccessPayload(id, db.users[id]), now, Some(now + 900)))
      && forall k | k in PrivateFields :: k !in claims.value.payload
  {
    var id := db.FindUserByEmail(email).value;
    AccessTokenVerifies(keys, id, db.users[id], now, later);
  }
}
