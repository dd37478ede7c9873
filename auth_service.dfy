/**
 * Sessions and token issue (src/service/auth.service.ts): creating a session,
 * the refresh token that names it, and the access token that carries the
 * user's non-private fields.
 */
module AuthService {
  import opened Wrappers
  import opened Bson
  import opened UserModel
  import opened SessionModel
  import opened Store
  import opened Jwt

  /** `expiresIn: "15m"`. */
  const AccessTokenTtl: Duration := Minutes(15)

  /** `expiresIn: "1y"`. */
  const RefreshTokenTtl: Duration := Years(1)

  /** `createSession({ userId })` on the value of the database. */
  function CreateSessionIn(db: Db, userId: ObjectId): (r: (Db, ObjectId))
    requires db.Valid()
    ensures r.0.Valid()
    ensures r.1 !in db.sessions
    ensures r.0.sessions == db.sessions[r.1 := Session(userId, true)]
    ensures r.0.users == db.users && r.0.emailIndex == db.emailIndex
  {
    db.InsertSession(NewSession(userId))
  }

  /** `createSession`. */
  method CreateSession(db: Database, userId: ObjectId) returns (id: ObjectId)
    requires db.Valid()
    modifies db
    ensures db.Valid()
    ensures (db.State(), id) == CreateSessionIn(old(db.State()), userId)
  {
    id := db.InsertSession(NewSession(userId));
  }

  /** The refresh-token payload: `{ session: <session id> }` and nothing else. */
  function RefreshPayload(session: ObjectId): (p: Object)
    ensures forall k | k in PrivateFields :: k !in p
  {
    map["session" := Oid(session)]
  }

  /** The refresh token for a session, signed at `now` with the refresh private key. */
  function RefreshToken(keys: KeyStore, session: ObjectId, now: nat): (token: string)
    ensures Sound(keys) ==>
      keys.decode(token) == Some(Token(Claims(RefreshPayload(session), now, Some(now + 31557600)), RS256, RefreshTokenPrivateKey))
  {
    SignJwt(keys, RefreshPayload(session), RefreshTokenPrivateKey, Some(SignOptions(Some(RefreshTokenTtl), None)), now)
  }

  /** `signRefreshToken` on the value of the database: one new session, and the token that names it. */
  function IssueRefreshToken(keys: KeyStore, db: Db, userId: ObjectId, now: nat): (r: (Db, string))
    requires db.Valid()
    ensures r.0.Valid()
    ensures exists s | s !in db.sessions ::
      r.0.sessions == db.sessions[s := Session(userId, true)] && r.1 == RefreshToken(keys, s, now)
    ensures r.0.users == db.users && r.0.emailIndex == db.emailIndex
  {
    var (db', session) := CreateSessionIn(db, userId);
    (db', RefreshToken(keys, session, now))
  }

  /** `signRefreshToken`. */
  method SignRefreshToken(db: Database, keys: KeyStore, userId: ObjectId, now: nat) returns (token: string)
    requires db.Valid()
    modifies db
    ensures db.Valid()
    ensures (db.State(), token) == IssueRefreshToken(keys, old(db.State()), userId, now)
  {
    var session := CreateSession(db, userId);
    token := RefreshToken(keys, session, now);
  }

  /**
   * The access-token payload, `omit(user.toJSON(), privateFields)`: of the
   * fields this model keeps, exactly the id and the three profile fields, so no
   * private field is present. The schema's timestamps are not modelled.
   */
  function AccessPayload(id: ObjectId, u: User): (p: Object)
    ensures p == map["_id" := Oid(id), "email" := Str(u.email), "firstName" := Str(u.firstName),
                     "lastName" := Str(u.lastName)]
    ensures forall k | k in PrivateFields :: k !in p
  {
    var p := Omit(ToJson(id, u), PrivateFields);
    assert p.Keys == {"_id", "email", "firstName", "lastName"};
    p
  }

  /** `signAccessToken`: reads no store and changes nothing. */
  function SignAccessToken(keys: KeyStore, id: ObjectId, u: User, now: nat): (token: string)
    ensures Sound(keys) ==>
      keys.decode(token) == Some(Token(Claims(AccessPayload(id, u), now, Some(now + 900)), RS256, AccessTokenPrivateKey))
  {
    SignJwt(keys, AccessPayload(id, u), AccessTokenPrivateKey, Some(SignOptions(Some(AccessTokenTtl), None)), now)
  }

  /** An access token verifies to the access payload for fifteen minutes, and not after. */
  lemma AccessTokenVerifies(keys: KeyStore, id: ObjectId, u: User, now: nat, later: nat)
    requires Sound(keys)
    ensures VerifyJwt(keys, SignAccessToken(keys, id, u, now), AccessTokenPublicKey, later)
            == if later < now + 900 then Some(Claims(AccessPayload(id, u), now, Some(now + 900))) else None
  {
    var options := Some(SignOptions(Some(AccessTokenTtl), None));
    if later < now + 900 {
      SignThenVerify(keys, AccessPayload(id, u), AccessTokenPrivateKey, options, now, later);
    } else {
      ExpiredRejected(keys, AccessPayload(id, u), AccessTokenPrivateKey, options, now, later, AccessTokenPublicKey);
    }
  }

  /** A refresh token verifies to `{ session }` for one year (365.25 days), and is never accepted as an access token. */
  lemma RefreshTokenVerifies(keys: KeyStore, session: ObjectId, now: nat, later: nat)
    requires Sound(keys)
    ensures VerifyJwt(keys, RefreshToken(keys, session, now), RefreshTokenPublicKey, later)
            == if later < now + 31557600 then Some(Claims(RefreshPayload(session), now, Some(now + 31557600))) else None
    ensures VerifyJwt(keys, RefreshToken(keys, session, now), AccessTokenPublicKey, later) == None
  {
    var options := Some(SignOptions(Some(RefreshTokenTtl), None));
    if later < now + 31557600 {
      SignThenVerify(keys, RefreshPayload(session), RefreshTokenPrivateKey, options, now, later);
    } else {
      ExpiredRejected(keys, RefreshPayload(session), RefreshTokenPrivateKey, options, now, later, RefreshTokenPublicKey);
    }
    OtherKeyRejects(keys, RefreshPayload(session), RefreshTokenPrivateKey, options, now, later, AccessTokenPublicKey);
  }
}
