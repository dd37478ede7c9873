/**
 * The routes of src/routes/ as one request type, and a sequence of requests
 * run against one database. The lemmas state what holds across any such
 * sequence: accounts and sessions are never removed, emails, verification
 * codes and sessions never change, verification is never undone, a refresh
 * token keeps working for its whole lifetime (nothing revokes a session), and
 * a used reset code stays used until a new one is requested.
 */
module Lifecycle {
  import opened Wrappers
  import opened Bson
  import Argon2
  import opened UserModel
  import opened Store
  import opened Jwt
  import opened Http
  import opened AuthService
  import UserController
  import UserControllerProperties
  import AuthController
  import AuthControllerProperties
  import Middleware

  /**
   * One request to one route, with the values the handler draws from the
   * random source (`code`, `salt`) and the clock (`now`).
   */
  datatype Request =
    | CreateUser(body: CreateUserInput, code: NanoId, salt: Argon2.Salt)
    | VerifyUser(id: ObjectId, verificationCode: string)
    | ForgotPassword(email: string, code: NanoId)
    | ResetPassword(id: ObjectId, passwordResetCode: string, password: string, salt: Argon2.Salt)
    | CreateSession(email: string, password: string, now: nat)
    | RefreshAccessToken(xRefresh: Option<string>, now: nat)
    | GetMe(authorization: Option<string>, now: nat)

  /** The handler behind each route. */
  function Step(keys: KeyStore, db: Db, r: Request): (o: Outcome)
    requires db.Valid()
    ensures o.db.Valid()
    ensures r.RefreshAccessToken? || r.GetMe? ==> o.db == db && o.mail == []
  {
    match r
    case CreateUser(body, code, salt) => UserController.Register(db, body, code, salt)
    case VerifyUser(id, code) => UserController.Verify(db, id, code)
    case ForgotPassword(email, code) => UserController.ForgotPassword(db, email, code)
    case ResetPassword(id, code, password, salt) => UserController.ResetPassword(db, id, code, password, salt)
    case CreateSession(email, password, now) => AuthController.Login(keys, db, email, password, now)
    case RefreshAccessToken(xRefresh, now) => Outcome(db, AuthController.Refresh(keys, db, xRefresh, now), [])
    case GetMe(authorization, now) => Outcome(db, Middleware.Me(keys, authorization, now), [])
  }

  /** The database after the requests, one after the other. */
  function Run(keys: KeyStore, db: Db, rs: seq<Request>): (final: Db)
    requires db.Valid()
    ensures final.Valid()
    decreases |rs|
  {
    if rs == [] then db else Run(keys, Step(keys, db, rs[0]).db, rs[1..])
  }

  /**
   * What may change between two states: users and sessions are only added;
   * a user's email and verification code never change, nor does `verified`
   * go back to false; a stored session never changes.
   */
  ghost predicate Grows(before: Db, after: Db) {
    && (forall id | id in before.users ::
          && id in after.users
          && after.users[id].email == before.users[id].email
          && after.users[id].verificationCode == before.users[id].verificationCode
          && (before.users[id].verified ==> after.users[id].verified))
    && (forall s | s in before.sessions :: s in after.sessions && after.sessions[s] == before.sessions[s])
  }

  lemma GrowsTransitive(a: Db, b: Db, c: Db)
    requires Grows(a, b) && Grows(b, c)
    ensures Grows(a, c)
  {
  }

  lemma RegisterGrows(db: Db, body: CreateUserInput, code: NanoId, salt: Argon2.Salt)
    requires db.Valid()
    ensures Grows(db, UserController.Register(db, body, code, salt).db)
    ensures UserController.Register(db, body, code, salt).db.sessions == db.sessions
  {
    var o := UserController.Register(db, body, code, salt);
    if o.response == Send(UserController.UserCreated) {
      UserControllerProperties.RegisterCreates(db, body, code, salt);
    } else {
      assert o.db == db;
    }
  }

  lemma VerifyGrows(db: Db, id: ObjectId, verificationCode: string)
    requires db.Valid()
    ensures Grows(db, UserController.Verify(db, id, verificationCode).db)
    ensures UserController.Verify(db, id, verificationCode).db.sessions == db.sessions
  {
    UserControllerProperties.VerifyOutcomes(db, id, verificationCode);
  }

  lemma ForgotPasswordGrows(db: Db, email: string, code: NanoId)
    requires db.Valid()
    ensures Grows(db, UserController.ForgotPassword(db, email, code).db)
    ensures UserController.ForgotPassword(db, email, code).db.sessions == db.sessions
  {
    UserControllerProperties.ForgotPasswordOutcomes(db, email, code);
  }

  lemma ResetPasswordGrows(db: Db, id: ObjectId, passwordResetCode: string, password: string, salt: Argon2.Salt)
    requires db.Valid()
    ensures Grows(db, UserController.ResetPassword(db, id, passwordResetCode, password, salt).db)
    ensures UserController.ResetPassword(db, id, passwordResetCode, password, salt).db.sessions == db.sessions
  {
    UserControllerProperties.ResetPasswordOutcomes(db, id, passwordResetCode, password, salt);
  }

  lemma LoginGrows(keys: KeyStore, db: Db, email: string, password: string, now: nat)
    requires db.Valid()
    ensures Grows(db, AuthController.Login(keys, db, email, password, now).db)
    ensures NewSessionsSound(db, AuthController.Login(keys, db, email, password, now).db)
  {
    var o := AuthController.Login(keys, db, email, password, now);
    AuthControllerProperties.LoginDecision(keys, db, email, password, now);
    if o.response.Response? && o.response.body.Tokens? {
      AuthControllerProperties.LoginCreatesOneSession(keys, db, email, password, now);
    }
  }

  /** Sessions added between the two states are valid and belong to a user of the first. */
  ghost predicate NewSessionsSound(before: Db, after: Db) {
    forall s | s in after.sessions && s !in before.sessions ::
      after.sessions[s].valid && after.sessions[s].user in before.users
  }

  lemma StepGrows(keys: KeyStore, db: Db, r: Request)
    requires db.Valid()
    ensures Grows(db, Step(keys, db, r).db)
    ensures NewSessionsSound(db, Step(keys, db, r).db)
  {
    match r
    case CreateUser(body, code, salt) => RegisterGrows(db, body, code, salt);
    case VerifyUser(id, verificationCode) => VerifyGrows(db, id, verificationCode);
    case ForgotPassword(email, code) => ForgotPasswordGrows(db, email, code);
    case ResetPassword(id, passwordResetCode, password, salt) =>
      ResetPasswordGrows(db, id, passwordResetCode, password, salt);
    case CreateSession(email, password, now) => LoginGrows(keys, db, email, password, now);
    case RefreshAccessToken(xRefresh, now) =>
    case GetMe(authorization, now) =>
  }

  /** No sequence of requests deletes or alters an account's identity, unverifies it, or touches a session. */
  lemma {:induction false} RunGrows(keys: KeyStore, db: Db, rs: seq<Request>)
    requires db.Valid()
    ensures Grows(db, Run(keys, db, rs))
    decreases |rs|
  {
    if rs != [] {
      var next := Step(keys, db, rs[0]).db;
      StepGrows(keys, db, rs[0]);
      RunGrows(keys, next, rs[1..]);
      GrowsTransitive(db, next, Run(keys, next, rs[1..]));
    }
  }

  /** Every session is valid and belongs to a stored user. */
  ghost predicate SessionsSound(db: Db) {
    forall s | s in db.sessions :: db.sessions[s].valid && db.sessions[s].user in db.users
  }

  lemma StepKeepsSessionsSound(keys: KeyStore, db: Db, r: Request)
    requires db.Valid() && SessionsSound(db)
    ensures SessionsSound(Step(keys, db, r).db)
  {
    StepGrows(keys, db, r);
  }

  /** Sessions start valid and nothing invalidates or orphans them. */
  lemma {:induction false} RunKeepsSessionsSound(keys: KeyStore, db: Db, rs: seq<Request>)
    requires db.Valid() && SessionsSound(db)
    ensures SessionsSound(Run(keys, db, rs))
    decreases |rs|
  {
    if rs != [] {
      StepKeepsSessionsSound(keys, db, rs[0]);
      RunKeepsSessionsSound(keys, Step(keys, db, rs[0]).db, rs[1..]);
    }
  }

  /**
   * A refresh token for a stored session, presented within a year, yields an
   * access token for the session's user whatever requests came in between:
   * there is no logout and no revocation.
   */
  lemma RefreshTokenNeverRevoked(keys: KeyStore, db: Db, s: ObjectId, rs: seq<Request>, now: nat, later: nat)
    requires Sound(keys) && db.Valid() && SessionsSound(db)
    requires s in db.sessions
    requires later < now + 31557600
    ensures var final := Run(keys, db, rs);
      var uid := db.sessions[s].user;
      && uid in final.users
      && AuthController.Refresh(keys, final, Some(RefreshToken(keys, s, now)), later)
        == Response(200, AccessToken(SignAccessToken(keys, uid, final.users[uid], later)))
  {
    var final := Run(keys, db, rs);
    RunGrows(keys, db, rs);
    RunKeepsSessionsSound(keys, db, rs);
    AuthControllerProperties.RefreshAccepts(keys, final, s, now, later);
  }

  /** Once an email is registered, every later registration of it, in any letter case, is refused with 409. */
  lemma EmailStaysTaken(keys: KeyStore, db: Db, id: ObjectId, rs: seq<Request>,
                        body: CreateUserInput, code: NanoId, salt: Argon2.Salt)
    requires db.Valid() && id in db.users
    requires Lower(body.email) == db.users[id].email && MeetsRequired(NewUser(body, code))
    ensures var o := UserController.Register(Run(keys, db, rs), body, code, salt);
      o.response == Response(409, Text(UserController.AccountExists)) && o.db == Run(keys, db, rs) && o.mail == []
  {
    var final := Run(keys, db, rs);
    RunGrows(keys, db, rs);
    UserControllerProperties.RegisterConflict(final, body, code, salt);
  }

  /** The request asks for a reset code for this address. */
  predicate RequestsResetFor(r: Request, email: string) {
    r.ForgotPassword? && Lower(r.email) == email
  }

  /** The user has no reset code. */
  ghost predicate NoResetPending(db: Db, id: ObjectId) {
    id in db.users && db.users[id].passwordResetCode.None?
  }

  lemma RegisterKeepsResetCodes(db: Db, body: CreateUserInput, code: NanoId, salt: Argon2.Salt)
    requires db.Valid()
    ensures var after := UserController.Register(db, body, code, salt).db;
      forall id | id in db.users :: id in after.users && after.users[id].passwordResetCode == db.users[id].passwordResetCode
  {
    if UserController.Register(db, body, code, salt).response == Send(UserController.UserCreated) {
      UserControllerProperties.RegisterCreates(db, body, code, salt);
    }
  }

  lemma VerifyKeepsResetCodes(db: Db, uid: ObjectId, verificationCode: string)
    requires db.Valid()
    ensures var after := UserController.Verify(db, uid, verificationCode).db;
      forall id | id in db.users :: id in after.users && after.users[id].passwordResetCode == db.users[id].passwordResetCode
  {
    UserControllerProperties.VerifyOutcomes(db, uid, verificationCode);
  }

  lemma ForgotPasswordKeepsOtherResetCodes(db: Db, email: string, code: NanoId)
    requires db.Valid()
    ensures var after := UserController.ForgotPassword(db, email, code).db;
      forall id | id in db.users && db.users[id].email != Lower(email) ::
        id in after.users && after.users[id].passwordResetCode == db.users[id].passwordResetCode
  {
    UserControllerProperties.ForgotPasswordOutcomes(db, email, code);
  }

  lemma ResetPasswordClearsResetCodes(db: Db, uid: ObjectId, passwordResetCode: string, password: string, salt: Argon2.Salt)
    requires db.Valid()
    ensures var after := UserController.ResetPassword(db, uid, passwordResetCode, password, salt).db;
      forall id | id in db.users :: id in after.users &&
        (after.users[id].passwordResetCode == db.users[id].passwordResetCode || after.users[id].passwordResetCode.None?)
  {
    UserControllerProperties.ResetPasswordOutcomes(db, uid, passwordResetCode, password, salt);
  }

  lemma LoginKeepsUsers(keys: KeyStore, db: Db, email: string, password: string, now: nat)
    requires db.Valid()
    ensures AuthController.Login(keys, db, email, password, now).db.users == db.users
  {
    var o := AuthController.Login(keys, db, email, password, now);
    AuthControllerProperties.LoginDecision(keys, db, email, password, now);
    if o.response.Response? && o.response.body.Tokens? {
      AuthControllerProperties.LoginCreatesOneSession(keys, db, email, password, now);
    }
  }

  lemma StepKeepsNoResetPending(keys: KeyStore, db: Db, id: ObjectId, r: Request)
    requires db.Valid() && NoResetPending(db, id) && !RequestsResetFor(r, db.users[id].email)
    ensures NoResetPending(Step(keys, db, r).db, id)
  {
    match r
    case CreateUser(body, code, salt) => RegisterKeepsResetCodes(db, body, code, salt);
    case VerifyUser(uid, verificationCode) => VerifyKeepsResetCodes(db, uid, verificationCode);
    case ForgotPassword(email, code) => ForgotPasswordKeepsOtherResetCodes(db, email, code);
    case ResetPassword(uid, passwordResetCode, password, salt) =>
      ResetPasswordClearsResetCodes(db, uid, passwordResetCode, password, salt);
    case CreateSession(email, password, now) => LoginKeepsUsers(keys, db, email, password, now);
    case RefreshAccessToken(xRefresh, now) =>
    case GetMe(authorization, now) =>
  }

  lemma {:induction false} RunKeepsNoResetPending(keys: KeyStore, db: Db, id: ObjectId, rs: seq<Request>)
    requires db.Valid() && NoResetPending(db, id)
    requires forall i | 0 <= i < |rs| :: !RequestsResetFor(rs[i], db.users[id].email)
    ensures NoResetPending(Run(keys, db, rs), id)
    decreases |rs|
  {
    if rs != [] {
      var next := Step(keys, db, rs[0]).db;
      StepKeepsNoResetPending(keys, db, id, rs[0]);
      StepGrows(keys, db, rs[0]);
      assert forall i | 0 <= i < |rs[1..]| :: rs[1..][i] == rs[i + 1];
      RunKeepsNoResetPending(keys, next, id, rs[1..]);
    }
  }

  /**
   * After a successful reset, no reset for that user succeeds again, with any
   * code, until someone asks for a new code for that user's address.
   */
  lemma ResetCodeStaysUsed(keys: KeyStore, db: Db, id: ObjectId, code: string, password: string, salt: Argon2.Salt,
                           rs: seq<Request>, again: string, password2: string, salt2: Argon2.Salt)
    requires db.Valid()
    requires UserController.ResetPassword(db, id, code, password, salt).response == Send(UserController.PasswordUpdated)
    requires forall i | 0 <= i < |rs| :: !RequestsResetFor(rs[i], db.users[id].email)
    ensures var after := UserController.ResetPassword(db, id, code, password, salt).db;
      var o := UserController.ResetPassword(Run(keys, after, rs), id, again, password2, salt2);
      o.response == Response(400, Text(UserController.CouldNotReset)) && o.db == Run(keys, after, rs)
  {
    var after := UserController.ResetPassword(db, id, code, password, salt).db;
    assert NoResetPending(after, id);
    assert after.users[id].email == db.users[id].email;
    RunKeepsNoResetPending(keys, after, id, rs);
  }
}
